/**
 * The voice catalogue of the Python backend: the parse-and-fallback part of
 * `NanoAITTS.load_voices` (backend/app/services/tts_service.py) and the
 * field it fills, `self.voices`, an insertion-ordered `dict`.
 */
module PyCatalogue {
  import opened Wrappers
  import opened Strings
  import opened OrderedMaps
  import opened Json

  // ---------------------------------------------------------------------
  // `load_voices`: the catalogue. The cache file, `http_get`, `json.load`,
  // `json.loads` and `json.dump` are replaced by their outcome: either a
  // parsed document or a failure somewhere along the way.
  // ---------------------------------------------------------------------

  /** The `{"name": …, "iconUrl": …}` value stored for a tag. */
  datatype Voice = Voice(name: Json, iconUrl: Json)

  /** What the reading stage delivered. */
  datatype VoiceSource = Parsed(data: Json) | Unavailable

  /** A catalogue item that `load_voices` can store. */
  datatype Keyed = Keyed(tag: string, voice: Voice)

  const DefaultVoice: Voice := Voice(Str("DeepSeek (Default)"), Str(""))

  /** `{"DeepSeek": {"name": "DeepSeek (Default)", "iconUrl": ""}}`. */
  const DefaultVoices: OrderedMap<Voice> := Singleton("DeepSeek", DefaultVoice)

  /** Python truthiness of a JSON value. */
  predicate Truthy(j: Json) {
    match j
    case Null => false
    case Bool(b) => b
    case Num(n) => n != 0
    case Str(s) => s != ""
    case Arr(xs) => xs != []
    case Obj(f) => f != map[]
  }

  /** Python `key in j`; None where `in` raises a TypeError. */
  function PyContains(j: Json, key: string): Option<bool> {
    match j
    case Obj(f) => Some(key in f)
    case Arr(xs) => Some(Str(key) in xs)
    case Str(s) => Some(exists i | 0 <= i <= |s| - |key| :: OccursAt(s, key, i))
    case _ => None
  }

  /** How far the guard and the `for` statement get with a document. */
  datatype Reach = Skip | Raise | Iterate(items: seq<Json>)

  /** `for item in l`: a list yields its elements; the first key of an object or character of a string, indexed with "title", raises. */
  function Iteration(l: Json): Reach {
    match l
    case Arr(xs) => Iterate(xs)
    case Obj(f) => if f == map[] then Iterate([]) else Raise
    case Str(s) => if s == "" then Iterate([]) else Raise
    case _ => Raise
  }

  /** `if data and "data" in data and data["data"] and "list" in data["data"]: for item in data["data"]["list"]`. */
  function Guard(data: Json): Reach {
    if !Truthy(data) then Skip
    else match PyContains(data, "data")
      case None => Raise
      case Some(false) => Skip
      case Some(true) =>
        if !data.Obj? then Raise
        else
          var d := data.fields["data"];
          if !Truthy(d) then Skip
          else match PyContains(d, "list")
            case None => Raise
            case Some(false) => Skip
            case Some(true) => if !d.Obj? then Raise else Iteration(d.fields["list"])
  }

  /**
   * `self.voices[item["tag"]] = {"name": item["title"], "iconUrl": item["icon"]}`:
   * None where the item is not an object, lacks a member, or has a tag that
   * is not a string.
   */
  function EntryOf(item: Json): Option<Keyed> {
    if item.Obj? && "title" in item.fields && "icon" in item.fields && "tag" in item.fields
      && item.fields["tag"].Str?
    then Some(Keyed(item.fields["tag"].s, Voice(item.fields["title"], item.fields["icon"])))
    else None
  }

  /** One pass of the loop body on the dictionary so far; None once an item has raised. */
  function Store(acc: Option<OrderedMap<Voice>>, item: Json): (r: Option<OrderedMap<Voice>>)
    requires acc.Some? ==> acc.value.Valid()
    ensures r.Some? ==> r.value.Valid()
  {
    match acc
    case None => None
    case Some(m) =>
      match EntryOf(item)
      case None => None
      case Some(e) => Some(m.Put(e.tag, e.voice))
  }

  /** The dictionary after storing `items` in order into a cleared one; None once an item raises. */
  function InsertAll(items: seq<Json>): (r: Option<OrderedMap<Voice>>)
    ensures r.Some? ==> r.value.Valid()
    decreases |items|
  {
    if items == [] then Some(Empty()) else Store(InsertAll(items[..|items| - 1]), items[|items| - 1])
  }

  lemma InsertAllStep(items: seq<Json>, i: nat)
    requires i < |items|
    ensures InsertAll(items[..i + 1]) == Store(InsertAll(items[..i]), items[i])
  {
    assert items[..i + 1][..i] == items[..i];
  }

  /** The voice map `load_voices` leaves behind. */
  function Catalogue(src: VoiceSource): (c: OrderedMap<Voice>)
    ensures c.Valid() && c.Size() >= 1
  {
    match src
    case Unavailable => DefaultVoices
    case Parsed(data) =>
      match Guard(data)
      case Skip => DefaultVoices
      case Raise => DefaultVoices
      case Iterate(items) =>
        match InsertAll(items)
        case None => DefaultVoices
        case Some(m) => if m.Size() == 0 then DefaultVoices else m
  }

  class NanoAiTts {
    var voices: OrderedMap<Voice>

    /** `__init__` ends by calling `load_voices`. */
    constructor (src: VoiceSource)
      ensures voices == Catalogue(src)
    {
      voices := Empty();
      new;
      LoadVoices(src);
    }

    /** `load_voices`: clear, store every item, fall back to the default when nothing was stored or anything raised. */
    method LoadVoices(src: VoiceSource)
      modifies this
      ensures voices == Catalogue(src)
    {
      match src {
        case Unavailable =>
          voices := Empty();
          voices := voices.Put("DeepSeek", DefaultVoice);
        case Parsed(data) =>
          voices := Empty();
          var raised := false;
          var reach := Guard(data);
          if reach.Raise? {
            raised := true;
          } else if reach.Iterate? {
            raised := StoreItems(reach.items);
          }
          if raised {
            voices := Empty();
            voices := voices.Put("DeepSeek", DefaultVoice);
          } else if voices.Size() == 0 {
            voices := voices.Put("DeepSeek", DefaultVoice);
          }
      }
    }

    /** The `for` loop over the list, into the cleared dictionary; `raised` when an item raises. */
    method StoreItems(items: seq<Json>) returns (raised: bool)
      requires voices == Empty()
      modifies this
      ensures raised <==> InsertAll(items) == None
      ensures !raised ==> InsertAll(items) == Some(voices)
    {
      raised := false;
      var i := 0;
      while i < |items| && !raised
        invariant 0 <= i <= |items|
        invariant InsertAll(items[..i]) == if raised then None else Some(voices)
      {
        InsertAllStep(items, i);
        var e := EntryOf(items[i]);
        if e.None? {
          raised := true;
        } else {
          voices := voices.Put(e.value.tag, e.value.voice);
        }
        i := i + 1;
      }
      if raised {
        InsertAllStops(items, i);
      } else {
        assert items[..i] == items;
      }
    }
  }

  /** Once an item raises, the rest of the list cannot bring the dictionary back. */
  lemma {:induction false} InsertAllStops(items: seq<Json>, i: nat)
    requires i <= |items| && InsertAll(items[..i]) == None
    ensures InsertAll(items) == None
    decreases |items| - i
  {
    if i < |items| {
      InsertAllStep(items, i);
      InsertAllStops(items, i + 1);
    } else {
      assert items[..i] == items;
    }
  }

  // ---------------------------------------------------------------------
  // What the catalogue holds.
  // ---------------------------------------------------------------------

  ghost predicate AllEntries(items: seq<Json>) {
    forall i :: 0 <= i < |items| ==> EntryOf(items[i]).Some?
  }

  /** The tags of a list of storable items, in list order. */
  function Tags(items: seq<Json>): (ts: seq<string>)
    requires AllEntries(items)
    ensures |ts| == |items|
    ensures forall i :: 0 <= i < |items| ==> ts[i] == EntryOf(items[i]).value.tag
  {
    seq(|items|, i requires 0 <= i < |items| => EntryOf(items[i]).value.tag)
  }

  /** The voice of the last item carrying `tag`: later duplicates overwrite earlier ones. */
  function LastVoice(items: seq<Json>, tag: string): Option<Voice>
    decreases |items|
  {
    if items == [] then None
    else
      var e := EntryOf(items[|items| - 1]);
      if e.Some? && e.value.tag == tag then Some(e.value.voice) else LastVoice(items[..|items| - 1], tag)
  }

  /** On a list of storable items, the dictionary has one key per distinct tag, in order of first occurrence, holding the last voice for it. */
  lemma {:induction false} InsertAllContents(items: seq<Json>)
    requires AllEntries(items)
    ensures InsertAll(items).Some?
    ensures InsertAll(items).value.keys == Dedup(Tags(items))
    ensures forall k :: k in InsertAll(items).value.values ==> LastVoice(items, k) == Some(InsertAll(items).value.values[k])
    ensures forall k :: k !in InsertAll(items).value.values ==> LastVoice(items, k) == None
    decreases |items|
  {
    if items != [] {
      var p := items[..|items| - 1];
      assert AllEntries(p) by {
        forall i | 0 <= i < |p| ensures EntryOf(p[i]).Some? {
          assert p[i] == items[i];
        }
      }
      InsertAllContents(p);
      assert Tags(p) == Tags(items)[..|items| - 1];
      assert EntryOf(items[|items| - 1]).Some?;
    }
  }

  /** One item that cannot be stored (not an object, a member missing, a tag that is not a string) sends the whole list to the fallback. */
  lemma InsertAllRaises(items: seq<Json>, i: nat)
    requires i < |items| && EntryOf(items[i]).None?
    ensures InsertAll(items) == None
  {
    InsertAllStep(items, i);
    InsertAllStops(items, i + 1);
  }

  /** The document delivered a non-empty list of storable items. */
  ghost predicate Delivers(src: VoiceSource) {
    src.Parsed? && Guard(src.data).Iterate? && |Guard(src.data).items| > 0 && AllEntries(Guard(src.data).items)
  }

  /**
   * The catalogue is either the stored list or exactly the default, and
   * the default is what every other outcome (guard false, a raise, an
   * empty list, a failed read) leaves behind.
   */
  lemma CatalogueCases(src: VoiceSource)
    ensures Delivers(src) ==> InsertAll(Guard(src.data).items) == Some(Catalogue(src))
    ensures Delivers(src) ==> Catalogue(src).keys == Dedup(Tags(Guard(src.data).items))
    ensures !Delivers(src) ==> Catalogue(src) == DefaultVoices
  {
    if src.Parsed? && Guard(src.data).Iterate? {
      var items := Guard(src.data).items;
      if AllEntries(items) {
        InsertAllContents(items);
        if |items| > 0 {
          DedupMembers(Tags(items));
        }
      } else {
        var i :| 0 <= i < |items| && EntryOf(items[i]).None?;
        InsertAllRaises(items, i);
      }
    }
  }

  /** The vendor's `{"data": {"list": items}}` reaches the loop with its list. */
  lemma GuardOfDocument(items: seq<Json>)
    ensures Guard(CatalogueDocument(items)) == Iterate(items)
  {
  }

  /**
   * For a vendor document of storable items: one key per distinct tag in
   * order of first occurrence, the first item's tag first, each holding
   * the name and icon of the last item with that tag.
   */
  lemma CatalogueOfDocument(items: seq<Json>)
    requires |items| > 0 && AllEntries(items)
    ensures Catalogue(Parsed(CatalogueDocument(items))).keys == Dedup(Tags(items))
    ensures Catalogue(Parsed(CatalogueDocument(items))).keys[0] == EntryOf(items[0]).value.tag
    ensures forall k :: k in Catalogue(Parsed(CatalogueDocument(items))).values ==>
      LastVoice(items, k) == Some(Catalogue(Parsed(CatalogueDocument(items))).values[k])
  {
    GuardOfDocument(items);
    InsertAllContents(items);
    DedupMembers(Tags(items));
  }
}
