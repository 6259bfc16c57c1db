/**
 * The decisions of the backend's HTTP handlers (backend/app/routes/tts.py):
 * the status of `/api/voices`, and for `/api/tts` the request-model length
 * check (backend/app/models/schemas.py), the blank-text rejection, the voice
 * resolution and the error wrapping around `get_audio`.
 *
 * The global `tts_service` is represented by its voice map (None before
 * `init_tts_service`), and `get_audio` by a function from text and voice to
 * the audio bytes or the message of the exception it raises.
 */
module PyRoutes {
  import opened Wrappers
  import opened OrderedMaps
  import opened Json
  import opened PyCatalogue

  /** What a handler answers: audio, the voice list, an `HTTPException`, or the request model's 422. */
  datatype Response =
    | Audio(bytes: seq<bv8>)
    | VoiceList(voices: OrderedMap<Voice>, count: nat)
    | HttpError(status: nat, detail: string)
    | Unprocessable

  /** Python `str.isspace` for one character. */
  predicate PySpace(c: char) {
    c == ' ' || ('\t' <= c <= '\r') || ('\U{1C}' <= c <= '\U{1F}') || c == '\U{85}' || c == '\U{A0}'
    || c == '\U{1680}' || ('\U{2000}' <= c <= '\U{200A}') || c == '\U{2028}' || c == '\U{2029}'
    || c == '\U{202F}' || c == '\U{205F}' || c == '\U{3000}'
  }

  /** `not text or not text.strip()`: nothing but whitespace. */
  predicate Blank(text: string) {
    forall i :: 0 <= i < |text| ==> PySpace(text[i])
  }

  /** `TTSRequest.text`: `min_length=1, max_length=5000`. */
  predicate TextFits(text: string) {
    1 <= |text| <= 5000
  }

  /** The voice passed to `get_audio`: the requested one if it is a key, else the first key, else "DeepSeek". */
  function ResolveVoice(voices: OrderedMap<Voice>, requested: string): (v: string)
    requires voices.Valid()
    ensures requested in voices.values ==> v == requested
    ensures requested !in voices.values && voices.Size() > 0 ==> v == voices.keys[0]
    ensures voices.Size() == 0 ==> v == "DeepSeek"
  {
    if requested in voices.values then requested
    else if voices.Size() > 0 then voices.keys[0]
    else "DeepSeek"
  }

  /** A non-empty catalogue never yields a voice it does not hold. */
  lemma ResolvedIsKey(voices: OrderedMap<Voice>, requested: string)
    requires voices.Valid() && voices.Size() > 0
    ensures ResolveVoice(voices, requested) in voices.values
  {
  }

  /**
   * An unknown voice after `load_voices`: the tag of the first list item when
   * the catalogue was delivered, "DeepSeek" when the default was installed.
   */
  lemma ResolveAfterLoad(src: VoiceSource, requested: string)
    requires requested !in Catalogue(src).values
    ensures Delivers(src) ==> ResolveVoice(Catalogue(src), requested) == EntryOf(Guard(src.data).items[0]).value.tag
    ensures !Delivers(src) ==> ResolveVoice(Catalogue(src), requested) == "DeepSeek"
  {
    CatalogueCases(src);
    if Delivers(src) {
      DedupMembers(Tags(Guard(src.data).items));
    }
  }

  /** `get_voices`. */
  function GetVoices(service: Option<OrderedMap<Voice>>): (r: Response)
    ensures service.None? ==> r == HttpError(500, "TTS service not initialized")
    ensures service.Some? && service.value.Size() == 0 ==> r == HttpError(503, "No voices available")
    ensures r.VoiceList? ==> service == Some(r.voices) && r.count == r.voices.Size() > 0
  {
    match service
    case None => HttpError(500, "TTS service not initialized")
    case Some(voices) =>
      if voices.Size() == 0 then HttpError(503, "No voices available")
      else VoiceList(voices, voices.Size())
  }

  /** Once `init_tts_service` has run `load_voices`, `/api/voices` lists the whole catalogue. */
  lemma GetVoicesAfterInit(src: VoiceSource)
    ensures GetVoices(Some(Catalogue(src))) == VoiceList(Catalogue(src), Catalogue(src).Size())
  {
  }

  /** `text_to_speech`, preceded by the validation of the request model. */
  function TextToSpeech(service: Option<OrderedMap<Voice>>, getAudio: (string, string) -> Result<seq<bv8>, string>,
                        text: string, voice: string): (r: Response)
    requires service.Some? ==> service.value.Valid()
    ensures !TextFits(text) ==> r == Unprocessable
    ensures TextFits(text) && service.None? ==> r == HttpError(500, "TTS service not initialized")
    ensures TextFits(text) && service.Some? && Blank(text) ==> r == HttpError(400, "Text cannot be empty")
  {
    if !TextFits(text) then Unprocessable
    else match service
      case None => HttpError(500, "TTS service not initialized")
      case Some(voices) =>
        if Blank(text) then HttpError(400, "Text cannot be empty")
        else match getAudio(text, ResolveVoice(voices, voice))
          case Ok(bytes) => Audio(bytes)
          case Err(message) => HttpError(500, "Failed to generate audio: " + message)
  }

  /** Rejected requests never reach `get_audio`: the answer is the same whatever it would do. */
  lemma RejectionBeforeAudio(service: Option<OrderedMap<Voice>>, g1: (string, string) -> Result<seq<bv8>, string>,
                             g2: (string, string) -> Result<seq<bv8>, string>, text: string, voice: string)
    requires service.Some? ==> service.value.Valid()
    requires !TextFits(text) || service.None? || Blank(text)
    ensures TextToSpeech(service, g1, text, voice) == TextToSpeech(service, g2, text, voice)
    ensures !TextToSpeech(service, g1, text, voice).Audio?
  {
  }

  /**
   * Audio is answered only with what `get_audio` returned for the text and an
   * existing voice; an exception becomes a 500 carrying its message.
   */
  lemma AudioOutcome(voices: OrderedMap<Voice>, getAudio: (string, string) -> Result<seq<bv8>, string>,
                     text: string, voice: string)
    requires voices.Valid() && voices.Size() > 0 && TextFits(text) && !Blank(text)
    ensures var v := ResolveVoice(voices, voice);
      v in voices.values
      && (getAudio(text, v).Ok? ==> TextToSpeech(Some(voices), getAudio, text, voice) == Audio(getAudio(text, v).value))
      && (getAudio(text, v).Err? ==>
            TextToSpeech(Some(voices), getAudio, text, voice) == HttpError(500, "Failed to generate audio: " + getAudio(text, v).error))
  {
  }
}
