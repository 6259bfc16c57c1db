/**
 * The worker's service object (src/services/tts.js): a `TTSService` wraps one
 * NanoAiTts client, checks the voice and the speed and pitch of a request,
 * runs the text through `processText` and sends one request for a single
 * chunk, or the batched requests of `getAudioBatch` for any other number of
 * chunks. The Markdown stage of `cleanText` is the parameter `markdown`, the
 * clock is the parameter `readings` (one `Date.now()` per models entry), and everything a vendor
 * call receives from outside is given as in module NanoAiTts.
 */
module TtsService {
  import opened Wrappers
  import opened Strings
  import opened Json
  import opened OrderedMaps
  import opened AudioBatch
  import opened TextProcessor
  import opened NanoAiTts

  // ---------------------------------------------------------------------
  // `validateVoice`.
  // ---------------------------------------------------------------------

  /** `validateVoice(voice)`, with the check `voice` is an own key of the catalogue. */
  function ValidateVoice(voices: OrderedMap<Voice>, voice: string): (r: Result<(), string>)
    ensures r.Ok? <==> voice in voices.values
    ensures r.Err? ==> r.error == NotFoundMessage(voice, voices.keys)
  {
    if !HasVoice(voices, voice) then Err(NotFoundMessage(voice, voices.keys)) else Ok(())
  }

  /** `validateVoice(voice)` as written: `!voices[voice]` also reads the members every object inherits. */
  function ValidateVoiceAsWritten(voices: OrderedMap<Voice>, voice: string): (r: Result<(), string>)
    ensures r.Ok? <==> voice in voices.values || voice in PrototypeNames
  {
    if !LookupTruthy(voices, voice) then Err(NotFoundMessage(voice, voices.keys)) else Ok(())
  }

  /** As written, "constructor" passes the voice check of the default catalogue; with the own-key check it is rejected with "not found". */
  lemma InheritedVoicePasses()
    ensures ValidateVoiceAsWritten(DefaultVoices, "constructor").Ok?
    ensures ValidateVoice(DefaultVoices, "constructor").Err?
    ensures OccursAt(ValidateVoice(DefaultVoices, "constructor").error, "not found", |"constructor"| + 9)
  {
    assert "constructor" != "DeepSeek";
    NotFoundMessageSays("constructor", DefaultVoices.keys);
  }

  /** The two checks differ only on the inherited names. */
  lemma ValidateVoiceAgrees(voices: OrderedMap<Voice>, voice: string)
    requires voice !in PrototypeNames
    ensures ValidateVoiceAsWritten(voices, voice) == ValidateVoice(voices, voice)
  {
  }

  // ---------------------------------------------------------------------
  // `getModels`.
  // ---------------------------------------------------------------------

  /** One entry of the `/v1/models` list (`kind` is its `object` member); `permission` is `[]` and `parent` is `null`. */
  datatype Model = Model(id: string, kind: string, created: int, ownedBy: string, permission: seq<string>,
                         root: string, parent: Option<string>)

  /**
   * `Object.entries(voices).map(...)`. The callback reads the clock once per
   * entry: `readings[i]` is the reading (milliseconds since the epoch) taken
   * for the `i`-th voice.
   */
  function Models(voices: OrderedMap<Voice>, readings: seq<nat>): (models: seq<Model>)
    requires |readings| == |voices.keys|
    ensures |models| == |voices.keys|
    ensures forall i :: 0 <= i < |models| ==>
      models[i].id == voices.keys[i] && models[i].kind == "model" && models[i].ownedBy == "nanoaitts"
      && models[i].root == "bot.n.cn" && models[i].permission == [] && models[i].parent.None?
      && models[i].created * 1000 <= readings[i] < (models[i].created + 1) * 1000
  {
    seq(|voices.keys|, i requires 0 <= i < |voices.keys| =>
      Model(voices.keys[i], "model", readings[i] / 1000, "nanoaitts", [], "bot.n.cn", None))
  }

  /** A clock that does not run backwards gives `created` values that do not decrease along the list. */
  lemma ModelsCreatedInOrder(voices: OrderedMap<Voice>, readings: seq<nat>, i: nat, j: nat)
    requires |readings| == |voices.keys| && i <= j < |readings| && readings[i] <= readings[j]
    ensures Models(voices, readings)[i].created <= Models(voices, readings)[j].created
  {
    var models := Models(voices, readings);
    assert models[i].created * 1000 <= readings[i] <= readings[j] < (models[j].created + 1) * 1000;
  }

  /** The models are the voices: one per key, no two with the same id. */
  lemma ModelsAreVoices(voices: OrderedMap<Voice>, readings: seq<nat>)
    requires voices.Valid() && |readings| == |voices.keys|
    ensures var models := Models(voices, readings);
      (forall id :: (exists i :: 0 <= i < |models| && models[i].id == id) <==> id in voices.values)
      && (forall i, j :: 0 <= i < j < |models| ==> models[i].id != models[j].id)
  {
    var models := Models(voices, readings);
    forall id
      ensures (exists i :: 0 <= i < |models| && models[i].id == id) <==> id in voices.values
    {
      if id in voices.values {
        var i :| 0 <= i < |voices.keys| && voices.keys[i] == id;
        assert models[i].id == id;
      }
    }
  }

  // ---------------------------------------------------------------------
  // `synthesize`: the checks, then one request or a batch.
  // ---------------------------------------------------------------------

  /** The options of `synthesize`; `stream` is read but not used. */
  datatype Settings = Settings(speed: real, pitch: real, stream: bool, chunkSize: int, maxLength: int,
                               shouldClean: bool, concurrency: nat)

  const DefaultSettings: Settings := Settings(1.0, 1.0, false, 500, 10000, true, 6)

  const SpeedOutOfRange: string := "Speed must be between 0.5 and 2.0"
  const PitchOutOfRange: string := "Pitch must be between 0.5 and 2.0"

  predicate InRange(x: real) {
    0.5 <= x <= 2.0
  }

  /** `processText(text, {maxLength, shouldClean, chunkSize})`: every other option takes its default. */
  function TextOptions(s: Settings): (o: Options)
    ensures o.removeMarkdown && o.removeEmojis && o.removeUrls && o.removeHtmlTags && o.normalizeWhitespace
    ensures o.minLength == 1 && o.maxLength == s.maxLength && o.shouldClean == s.shouldClean && o.chunkSize == s.chunkSize
  {
    Options(true, true, true, true, true, s.maxLength, 1, s.shouldClean, s.chunkSize)
  }

  /** What `synthesize` decides before it calls the vendor: an error, one request, or a batch. */
  datatype Plan = Reject(error: string) | Single(processed: Processed) | Batched(processed: Processed)

  /** The checks of `synthesize`, in their order, and the dispatch on the number of chunks. */
  function SynthesisPlan(voices: OrderedMap<Voice>, text: Json, voice: string, s: Settings, markdown: string -> string): (p: Plan)
    ensures p.Single? ==> |p.processed.chunks| == 1
    ensures !p.Reject? ==> text == Str(p.processed.original)
  {
    if ValidateVoice(voices, voice).Err? then Reject(ValidateVoice(voices, voice).error)
    else if !InRange(s.speed) then Reject(SpeedOutOfRange)
    else if !InRange(s.pitch) then Reject(PitchOutOfRange)
    else match ProcessText(text, TextOptions(s), markdown)
      case Err(e) => Reject(e)
      case Ok(p) => if |p.chunks| == 1 then Single(p) else Batched(p)
  }

  /**
   * The voice is checked first, then the speed, then the pitch, then the
   * text; a request goes out only when all four pass, and it is a single
   * one exactly when the text has one chunk.
   */
  lemma SynthesisPlanOrder(voices: OrderedMap<Voice>, text: Json, voice: string, s: Settings, markdown: string -> string)
    ensures var p := SynthesisPlan(voices, text, voice, s, markdown);
      (voice !in voices.values ==> p == Reject(NotFoundMessage(voice, voices.keys)))
      && (voice in voices.values && !InRange(s.speed) ==> p == Reject(SpeedOutOfRange))
      && (voice in voices.values && InRange(s.speed) && !InRange(s.pitch) ==> p == Reject(PitchOutOfRange))
      && (!p.Reject? <==> voice in voices.values && InRange(s.speed) && InRange(s.pitch)
                          && ProcessText(text, TextOptions(s), markdown).Ok?)
      && (!p.Reject? ==> ProcessText(text, TextOptions(s), markdown) == Ok(p.processed)
                         && (p.Single? <==> |p.processed.chunks| == 1))
  {
  }

  /**
   * With cleaning on, an accepted text has at least one chunk, so a batch
   * has at least two; every chunk sent is trimmed, non-empty and within
   * `chunkSize` unless it is one word.
   */
  lemma CleanedPlanChunks(voices: OrderedMap<Voice>, text: Json, voice: string, s: Settings, markdown: string -> string)
    requires s.shouldClean
    ensures var p := SynthesisPlan(voices, text, voice, s, markdown);
      !p.Reject? ==> GoodChunks(p.processed.chunks, s.chunkSize) && (p.Batched? ==> |p.processed.chunks| >= 2)
  {
    var p := SynthesisPlan(voices, text, voice, s, markdown);
    if !p.Reject? {
      ProcessTextChunks(text, TextOptions(s), markdown);
    }
  }

  /** Without cleaning, a text of whitespace only is accepted and goes to a batch of no chunks. */
  lemma BlankTextBatchesNothing(voices: OrderedMap<Voice>, text: string, voice: string, s: Settings, markdown: string -> string)
    requires voice in voices.values && InRange(s.speed) && InRange(s.pitch) && !s.shouldClean
    requires text != [] && AllSpaces(text) && Utf16Length(text) <= s.maxLength
    ensures SynthesisPlan(voices, Str(text), voice, s, markdown) == Batched(Processed(text, text, []))
  {
    var o := TextOptions(s);
    assert Cleaned(text, o, markdown) == text;
    ChunkTextProperties(text, s.chunkSize);
    assert ProcessText(Str(text), o, markdown) == Ok(Processed(text, text, []));
  }

  /** The result of `synthesize`; `format` is always 'mp3' and `stream` always false. */
  datatype Speech = Speech(audio: seq<bv8>, format: string, text: string, chunks: nat, stream: bool)

  function SpeechOf(audio: seq<bv8>, p: Processed): (sp: Speech)
    ensures sp.format == "mp3" && !sp.stream && sp.text == p.original && sp.chunks == |p.chunks| && sp.audio == audio
  {
    Speech(audio, "mp3", p.original, |p.chunks|, false)
  }

  /** The inputs of the first `n` vendor calls. */
  function CallsOf(supply: nat -> CallInputs, n: nat): (calls: seq<CallInputs>)
    ensures |calls| == n && forall i :: 0 <= i < n ==> calls[i] == supply(i)
  {
    seq(n, i requires 0 <= i < n => supply(i))
  }

  class Service {
    const nanoAiTts: Client

    /** `new TTSService(kv)`: a fresh client over the same KV namespace. */
    constructor (kv: bool)
      ensures fresh(nanoAiTts) && nanoAiTts.kv == kv
      ensures nanoAiTts.voices == Empty() && !nanoAiTts.voicesLoaded
    {
      nanoAiTts := new Client(kv);
    }

    /** `init()`: `loadVoices()` without forcing a refresh. */
    method Init(inp: LoadInputs)
      requires inp.env.Valid()
      modifies nanoAiTts
      ensures nanoAiTts.voices == LoadOutcome(nanoAiTts.kv, false, inp).voices
      ensures nanoAiTts.voicesLoaded == (old(nanoAiTts.voicesLoaded) || LoadOutcome(nanoAiTts.kv, false, inp).setsLoaded)
    {
      nanoAiTts.LoadVoices(false, inp);
    }

    /** `getModels()`. */
    function GetModels(readings: seq<nat>): (models: seq<Model>)
      requires |readings| == |nanoAiTts.voices.keys|
      reads nanoAiTts
      ensures models == Models(nanoAiTts.voices, readings)
    {
      Models(nanoAiTts.voices, readings)
    }

    /** `refreshVoices()`: a forced reload, which always sets the loaded flag, and the voices it leaves. */
    method RefreshVoices(inp: LoadInputs) returns (voices: OrderedMap<Voice>)
      requires inp.env.Valid()
      modifies nanoAiTts
      ensures voices == nanoAiTts.voices == LoadOutcome(nanoAiTts.kv, true, inp).voices
      ensures nanoAiTts.voicesLoaded && voices.Valid()
    {
      LoadCases(nanoAiTts.kv, true, inp);
      nanoAiTts.LoadVoices(true, inp);
      voices := nanoAiTts.voices;
    }

    /**
     * `synthesize(text, voice, options)`. The plan is made on the voices the
     * client holds, loaded or not; vendor call `i` receives `supply(i)`, and
     * `step` is `getAudio` of this client for `voice`. A rejection changes
     * nothing; otherwise the client and the result are those of `getAudio`
     * on the one chunk, or of `getAudioBatch` on all of them.
     */
    method Synthesize(text: Json, voice: string, s: Settings, markdown: string -> string,
                      encode: string -> string, post: Request -> HttpReply,
                      supply: nat -> CallInputs, ghost step: CallFn<State, CallInputs>)
      returns (r: Result<Speech, string>)
      requires s.concurrency >= 1 && forall i :: supply(i).Valid()
      requires IsCallOf(step, nanoAiTts.Context(encode, post), voice)
      modifies nanoAiTts
      ensures r.Ok? ==> r.value.format == "mp3" && !r.value.stream && text == Str(r.value.text)
      ensures match SynthesisPlan(old(nanoAiTts.voices), text, voice, s, markdown)
        case Reject(e) => r == Err(e) && nanoAiTts.Snapshot() == old(nanoAiTts.Snapshot())
        case Single(p) =>
          var c := CallStep(nanoAiTts.Context(encode, post), old(nanoAiTts.Snapshot()), supply(0), p.chunks[0], voice);
          nanoAiTts.Snapshot() == c.state
          && r == (if c.result.Ok? then Ok(SpeechOf(c.result.value, p)) else Err(c.result.error))
        case Batched(p) =>
          var b := RunFrom(step, old(nanoAiTts.Snapshot()), p.chunks, CallsOf(supply, |p.chunks|), s.concurrency, 0, []);
          nanoAiTts.Snapshot() == b.state
          && r == (if b.result.Ok? then Ok(SpeechOf(Concat(b.result.value), p)) else Err(b.result.error))
    {
      var plan := SynthesisPlan(nanoAiTts.voices, text, voice, s, markdown);
      match plan
      case Reject(e) =>
        r := Err(e);
      case Single(p) =>
        var audio, sent := nanoAiTts.GetAudio(p.chunks[0], voice, encode, post, supply(0));
        r := if audio.Ok? then Ok(SpeechOf(audio.value, p)) else Err(audio.error);
      case Batched(p) =>
        var audio := nanoAiTts.GetAudioBatch(p.chunks, voice, s.concurrency, encode, post, CallsOf(supply, |p.chunks|), step);
        r := if audio.Ok? then Ok(SpeechOf(audio.value, p)) else Err(audio.error);
    }
  }
}
