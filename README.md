# bot.n.cn text-to-speech clients, modelled in Dafny

The repository holds two clients for the bot.n.cn text-to-speech vendor:

- a Python FastAPI backend:
  - `NanoAITTS` in backend/app/services/tts_service.py;
  - the `/api/voices` and `/api/tts` handlers in backend/app/routes/tts.py;
  - the request model in backend/app/models/schemas.py.
- a JavaScript Cloudflare worker:
  - `NanoAITTS` in src/services/nano-ai-tts.js;
  - the hand-written MD5 in src/utils/md5.js;
  - the text cleaner and chunker in src/services/text-processor.js;
  - the `TTSService` orchestration in src/services/tts.js.

This project models the logic of both clients, with one Dafny module per source file:

- **Vendor authentication.**
  - The rolling hash `_e`.
  - The fingerprint descriptor and `generateUniqueHash`.
  - The message id `generateMid`.
  - The ISO-8601 timestamp with the fixed `+08:00` suffix.
  - The seven signed headers, including `zm-token`.
- **The voice catalogue.**
  - Building it from the vendor's `robots.json` document, with the single `DeepSeek` default as the fallback.
  - The worker's cache/fetch/fallback state changes.
  - Voice resolution (Python) and voice validation (JavaScript).
- **MD5.**
  - Padding, the length field, the 64 steps per block over `bv32`, and the little-endian hex output.
  - The whole chain is proved against the empty-message test vector of RFC 1321 appendix A.5.
- **Text processing.**
  - `cleanText`: tags, URLs, emoji ranges and whitespace; the Markdown stage is a parameter.
  - `smartChunkText`: the sentence and word chunker.
  - `processText`: length validation.
- **Orchestration.**
  - `synthesize`: its checks in order, then the single/batch dispatch.
  - The batch schedule of `getAudioBatch`.
  - `_combineAudioBuffers`.

Modules and files:

| module | file | models |
|---|---|---|
| `PyTtsService` | py_tts_service.dfy | `_e`, the fingerprint, `generate_mid`, `get_iso8601_time`, `get_headers`, `get_audio` |
| `PyCatalogue` | py_catalogue.dfy | the class `NanoAITTS` and the parse/fallback part of `load_voices` |
| `PyRoutes` | py_routes.dfy | `get_voices` and `text_to_speech`; the `TTSRequest` length bounds |
| `NanoAiTts` | nano_ai_tts.dfy | the class `NanoAITTS` of the worker (class `Client`) and `refreshVoiceCache` |
| `AudioBatch` | audio_batch.dfy | the schedule of `getAudioBatch`, generic in the call |
| `Md5` | md5.dfy | `leftRotate`, `md5Hash`, the tables `S` and `K` |
| `Md5Vectors` | md5_vectors.dfy | `md5Hash("")`, step by step |
| `TextProcessor` | text_processor.dfy | `cleanText`, `smartChunkText`, `processText` |
| `TtsService` | tts_service.dfy | the class `TTSService` (class `Service`) |
| `Agreement` | agreement.dfy | where the two `_e`, timestamps, headers and descriptors agree or differ |
| `Strings`, `Bits`, `Json`, `OrderedMaps`, `Clock`, `Wrappers` | strings.dfy, bits.dfy, json.dfy, ordered_map.dfy, clock.dfy, wrappers.dfy | shared helpers |

How the inputs are represented:

- **Randomness and the clock are parameters.**
  - `r` is the already rounded `round(random() * 2147483647)`.
  - `clockText` is the text of the float millisecond sum.
  - `DateTime` is the local clock reading.
- **Foreign and I/O calls are function parameters or inputs.**
  - Python's `hashlib.md5` is `md5`.
  - `urllib.parse.quote` and `encodeURIComponent` are `quote` and `encode`.
  - The vendor's answer is `post`.
  - The cache and fetch outcomes are values of `LoadInputs` / `VoiceSource`.
- **The voice maps are `OrderedMap`s.** These are insertion-ordered dictionaries, as Python dicts and JavaScript objects are.

The clients differ in the following ways, and the model keeps both versions apart:

- **The descriptor.** JavaScript renders `ver` 1.0 as `"1"` and Python renders it as `"1.0"`. The descriptors therefore differ (`Agreement.DescriptorsDiffer`).
- **The fingerprint.** `*` binds tighter than `^` in the JavaScript fingerprint (src/services/nano-ai-tts.js:69). The random value is xored with the ToInt32 of the double product, whereas Python multiplies the xor by 2147483647.
- **An empty list.** JavaScript adds no default voice when `data.list` is absent or empty. Python falls back to `DeepSeek`.
- **An unknown voice.** JavaScript throws "not found" for a voice missing from its voice object, but its test is truthiness, so names inherited from `Object.prototype` such as "toString" pass it (see "## Findings"). The model of the worker uses the own-key test HasVoice. The Python route substitutes the first catalogue key.

## Model

| member | source | states |
|---|---|---|
| PyTtsService.E | backend/app/services/tts_service.py:33-45 | the reverse loop computes the reference fold `HashOf` of the code points; `_e("") == 0`; the result is below 2^36 |
| PyTtsService.HashBound | backend/app/services/tts_service.py:38-45 | for code points up to 0x10FFFF every value of the accumulator stays below 2^36, so 64 bits never wrap |
| PyTtsService.HashBoundBmp | backend/app/services/tts_service.py:38-45 | for code points up to 0xFFFF the hash is below 2^31 |
| PyTtsService.StepBound | backend/app/services/tts_service.py:41-44 | one step (mask, add, conditional fold) keeps the accumulator below 2^36 |
| PyTtsService.MaskedShiftBound | backend/app/services/tts_service.py:41 | `(at << 6) & 268435455` is below 2^28 |
| PyTtsService.MixBound | backend/app/services/tts_service.py:42-44 | `(at & 266338304) >> 21` is below 128 |
| PyTtsService.FoldXor | backend/app/services/tts_service.py:42-44 | the conditional xor equals the unconditional one: when the masked value is 0 the xor changes nothing |
| PyTtsService.BuildDescriptor | backend/app/services/tts_service.py:58-64 | the `while it` loop runs exactly once and leaves the base followed by `str(1 ^ len(base))` |
| PyTtsService.DescriptorSuffix | backend/app/services/tts_service.py:49-64 | the Python base has 162 characters (with `ver` as "1.0"), so the descriptor ends in "163" |
| PyTtsService.GenerateUniqueHash | backend/app/services/tts_service.py:47-66 | the fingerprint is `(r ^ _e(descriptor)) * 2147483647`: non-negative, a multiple of 2147483647, below 2^36 · 2147483647 |
| PyTtsService.FormatMid | backend/app/services/tts_service.py:74 | the id has no '.', has length min(32, len(rt)), and each character is that of `rt` with '.' replaced by 'e' |
| PyTtsService.FormatMidPrefix | backend/app/services/tts_service.py:74 | the id is a prefix of the dot-replaced text, and a prefix of `rt` itself when `rt` has no dot |
| PyTtsService.GenerateMid | backend/app/services/tts_service.py:68-75 | the id is built from `str(_e(domain))`, the fingerprint and the clock text, then formatted as above |
| PyTtsService.TimestampRoundTrip | backend/app/services/tts_service.py:77-80 | for a four-digit year the timestamp has 25 characters, ends in "+08:00", and parses back to the same date and time |
| PyTtsService.Headers | backend/app/services/tts_service.py:82-101 | exactly the seven keys; the fixed device, version and user agent; the given timestamp and access token; `zm-ua` = md5(ua) |
| PyTtsService.HeadersSigned | backend/app/services/tts_service.py:90-91 | `zm-token` = md5("Web" + timestamp + "1.2" + access-token + zm-ua) |
| PyTtsService.HeadersTokenBinds | backend/app/services/tts_service.py:90-97 | with a collision-free digest and timestamps of one length, equal `zm-token`s mean the same timestamp and the same access token |
| PyTtsService.GetHeaders | backend/app/services/tts_service.py:82-101 | the headers for the clock reading and the message id of this call, signed |
| PyTtsService.AudioUrl | backend/app/services/tts_service.py:161 | the endpoint followed by the voice, not encoded |
| PyTtsService.FormBodyFields | backend/app/services/tts_service.py:166 | the body splits on '&' into "", "text=" + quote(text), "audio_type=mp3" and "format=stream" |
| PyTtsService.AudioHeaders | backend/app/services/tts_service.py:163-164 | the signed headers plus the form Content-Type, which replaces no signed key |
| PyTtsService.AudioRequest | backend/app/services/tts_service.py:159-166 | the URL, headers and body of the POST that `get_audio` sends |
| PyTtsService.GetAudio | backend/app/services/tts_service.py:159-174 | the result is what `http_post` returns for that request, bytes or the error it raises |
| PyCatalogue.Store | backend/app/services/tts_service.py:143-147 | one item: a keyed insert of {name, iconUrl}; a missing field raises, and the map stays a valid ordered map |
| PyCatalogue.InsertAllStep | backend/app/services/tts_service.py:143-147 | the loop over `data["data"]["list"]` is the fold of those inserts |
| PyCatalogue.InsertAllStops | backend/app/services/tts_service.py:141-157 | once an item raises, the whole loop raises (the partial inserts are discarded by the handler) |
| PyCatalogue.InsertAllRaises | backend/app/services/tts_service.py:144-146 | an item without tag, title or icon makes the loop raise |
| PyCatalogue.InsertAllContents | backend/app/services/tts_service.py:141-147 | on well-formed items the keys are the distinct tags in first-occurrence order, and each value is the last item with that tag |
| PyCatalogue.Catalogue | backend/app/services/tts_service.py:124-157 | the catalogue after `load_voices` is a valid ordered map and is never empty |
| PyCatalogue.CatalogueCases | backend/app/services/tts_service.py:124-157 | the loop's map when the document delivers a non-empty well-formed list, otherwise exactly the single DeepSeek default |
| PyCatalogue.GuardOfDocument | backend/app/services/tts_service.py:142 | the guard `data and "data" in data and data["data"] and "list" in data["data"]` passes a catalogue document's list |
| PyCatalogue.CatalogueOfDocument | backend/app/services/tts_service.py:124-152 | for a non-empty well-formed list the keys are its distinct tags, and the first key is the first item's tag |
| PyCatalogue.NanoAiTts.constructor | backend/app/services/tts_service.py:18-27 | the constructor loads the catalogue |
| PyCatalogue.NanoAiTts.LoadVoices | backend/app/services/tts_service.py:124-157 | clear, then the inserts, then the default; `voices` becomes the catalogue of the source |
| PyCatalogue.NanoAiTts.StoreItems | backend/app/services/tts_service.py:141-147 | the keyed-insert loop on the cleared map raises exactly when the fold does, and otherwise leaves the fold's map |
| PyRoutes.ResolveVoice | backend/app/routes/tts.py:54-58 | the requested voice if it is a key; otherwise the first key in insertion order; "DeepSeek" only for an empty map |
| PyRoutes.ResolvedIsKey | backend/app/routes/tts.py:54-58 | on a non-empty map the resolved voice is always an existing key |
| PyRoutes.ResolveAfterLoad | backend/app/routes/tts.py:54-56 | after `load_voices`, an unknown voice resolves to the first item's tag, or to "DeepSeek" after the fallback |
| PyRoutes.GetVoices | backend/app/routes/tts.py:30-42 | 500 before initialisation, 503 for an empty map, otherwise the map with `count == len(voices)` |
| PyRoutes.GetVoicesAfterInit | backend/app/routes/tts.py:36-42 | after initialisation `/voices` always answers with the catalogue and its size |
| PyRoutes.TextToSpeech | backend/app/routes/tts.py:45-71 | 422 outside the length bounds; 500 before initialisation; 400 for blank text |
| PyRoutes.RejectionBeforeAudio | backend/app/models/schemas.py:7 | a text outside 1..5000 characters, a missing service or a blank text is answered without calling `get_audio` |
| PyRoutes.AudioOutcome | backend/app/routes/tts.py:54-71 | otherwise `get_audio` runs for the resolved key; its bytes are the answer, and an exception becomes 500 with "Failed to generate audio: " + message |
| NanoAiTts.CharUnits | src/services/nano-ai-tts.js:37 | `charCodeAt` sees one UTF-16 code unit per character of the BMP and two beyond it |
| NanoAiTts.E | src/services/nano-ai-tts.js:31-45 | the reverse loop over code units computes `HashOf`; `_e("") == 0`; the result is below 2^31 |
| NanoAiTts.MixedExact | src/services/nano-ai-tts.js:38 | the 32-bit shift, mask and sums never wrap, and equal the same arithmetic in 64 bits |
| NanoAiTts.FoldPlain | src/services/nano-ai-tts.js:39-42 | the arithmetic `>>` on the masked (non-negative) value and the conditional xor equal a plain xor with the logical shift |
| NanoAiTts.StepBound | src/services/nano-ai-tts.js:38-42 | every step keeps the accumulator below 2^31 |
| NanoAiTts.HashBound | src/services/nano-ai-tts.js:36-44 | so the value of `_e` is below 2^31 for any text |
| NanoAiTts.BuildDescriptor | src/services/nano-ai-tts.js:60-67 | the `while (it)` loop runs exactly once and appends `String(1 ^ nt.length)` to the base |
| NanoAiTts.DescriptorSuffix | src/services/nano-ai-tts.js:51-67 | with `ver` rendered as "1" the base has 160 characters, so "161" is appended |
| NanoAiTts.NearestDouble | src/services/nano-ai-tts.js:69 | the product as a double is within half an ulp of the exact product, and exact below 2^53 |
| NanoAiTts.Fingerprint | src/services/nano-ai-tts.js:69 | the fingerprint is a signed 32-bit integer, since `^` is applied after `*` |
| NanoAiTts.Client.GenerateUniqueHash | src/services/nano-ai-tts.js:50-70 | the fingerprint of the descriptor's hash and the rounded random value, in the 32-bit signed range |
| NanoAiTts.Mid | src/services/nano-ai-tts.js:75-81 | the id has no '.', at most 32 characters (min(32, length)), and is a prefix of the dot-replaced concatenation |
| NanoAiTts.MidOfDotFree | src/services/nano-ai-tts.js:80 | without dots in the raw text the id is a prefix of the raw text |
| NanoAiTts.Client.GenerateMid | src/services/nano-ai-tts.js:75-81 | the id for this call's environment |
| NanoAiTts.Pad2 | src/services/nano-ai-tts.js:89-93 | `padStart(2, '0')` of a number below 100 gives its two decimal digits |
| NanoAiTts.Md5Of | src/services/nano-ai-tts.js:105-108 | the worker signs with `md5Hash`, 32 hex digits |
| NanoAiTts.Headers | src/services/nano-ai-tts.js:100-119 | exactly the seven keys, with device "Web", version "1.2", the user agent, the given timestamp and token, and `zm-ua` = md5(ua) |
| NanoAiTts.HeadersSigned | src/services/nano-ai-tts.js:107-108 | `zm-token` = md5(device + timestamp + ver + accessToken + zmUa), and adding the Content-Type keeps that |
| NanoAiTts.Client.GetHeaders | src/services/nano-ai-tts.js:100-119 | the headers for this call's clock and id, signed with `md5Hash` |
| NanoAiTts.Member | src/services/nano-ai-tts.js:173 | a property read yields a value exactly for an object that has that key |
| NanoAiTts.ParseItemsStep | src/services/nano-ai-tts.js:174-179 | the `for` loop of `_parseVoices` is the fold of keyed stores |
| NanoAiTts.ParseItemsThrows | src/services/nano-ai-tts.js:174-179 | a null item, or a tag whose conversion to a property key throws, makes the loop throw; any other item, a number or a string included, is stored (under "undefined" when it has no `tag`) |
| NanoAiTts.ParseItemsStops | src/services/nano-ai-tts.js:174-179 | after a throw no later item is stored, and the partial map is kept |
| NanoAiTts.ParseItemsContents | src/services/nano-ai-tts.js:171-181 | without a throw, the keys are the distinct property keys in first-occurrence order, each with the last item's name and icon |
| NanoAiTts.ParseOfDocument | src/services/nano-ai-tts.js:171-181 | for a catalogue document the keys are exactly the tags of `data.data.list`, and an empty list leaves an empty map |
| NanoAiTts.ParseWithoutList | src/services/nano-ai-tts.js:172-173 | without a truthy `data.data.list` the voices become empty and no default is added |
| NanoAiTts.Client.ParseVoices | src/services/nano-ai-tts.js:171-181 | `voices` is replaced wholesale by the parse outcome; `voicesLoaded` is untouched |
| NanoAiTts.Client.StoreItems | src/services/nano-ai-tts.js:174-179 | the store loop on the emptied map ends with the fold's map and throw flag |
| NanoAiTts.LoadCases | src/services/nano-ai-tts.js:124-166 | a parsed document's voices; or exactly the DeepSeek default after any failure; `voicesLoaded` stays unset only on the KV-hit early return |
| NanoAiTts.LoadIgnoresCache | src/services/nano-ai-tts.js:127-154 | `forceRefresh` or a missing KV skips the cache read, and without KV the write cannot fail |
| NanoAiTts.Client.LoadVoices | src/services/nano-ai-tts.js:124-166 | `voices` and `voicesLoaded` after `loadVoices`, as in `LoadOutcome` |
| NanoAiTts.Client.EnsureLoaded | src/services/nano-ai-tts.js:194-196 | loads only when `voicesLoaded` is false |
| NanoAiTts.AudioRequest | src/services/nano-ai-tts.js:205-209 | the request carries signed headers with the form Content-Type |
| NanoAiTts.AudioOutcomeCases | src/services/nano-ai-tts.js:211-226 | the audio comes exactly from an ok response, with its bytes; every error starts with "Failed to get audio: ", and a network error carries its message |
| NanoAiTts.NotFoundMessageSays | src/services/nano-ai-tts.js:199-203 | the message names the voice and says "not found" |
| NanoAiTts.CallStepCases | src/services/nano-ai-tts.js:193-227 | a voice that is not a key is rejected with "not found" and no request is sent; a key leads to exactly one request, whose answer is the result (corrected voice check: own keys only) |
| NanoAiTts.CallStepLoaded | src/services/nano-ai-tts.js:194-196 | once loaded, `getAudio` leaves the state unchanged |
| NanoAiTts.Client.SendAudio | src/services/nano-ai-tts.js:198-226 | the voice check and the request of one call, with the state left as it is (corrected voice check: own keys only) |
| NanoAiTts.Client.GetAudio | src/services/nano-ai-tts.js:193-227 | the state and result of `getAudio`: the lazy load, then the voice check and the request (corrected voice check: own keys only) |
| NanoAiTts.Client.GetAudioInBatch | src/services/nano-ai-tts.js:238 | one call of a batch is `getAudio` of this client |
| NanoAiTts.Client.RunBatch | src/services/nano-ai-tts.js:237-241 | the calls of a batch, in chunk order |
| NanoAiTts.Client.GetAudioBatch | src/services/nano-ai-tts.js:233-250 | the batches of `RunFrom` and then the buffers concatenated, or "Batch processing failed: " + the first error |
| NanoAiTts.BatchKeepsLoadedState | src/services/nano-ai-tts.js:233-250 | with the voices loaded, a batch leaves the client state unchanged whatever its outcome |
| NanoAiTts.CombineAudioBuffers | src/services/nano-ai-tts.js:255-272 | a fresh buffer whose bytes are the inputs concatenated in order, so its length is the sum of theirs |
| NanoAiTts.RefreshVoiceCache | src/services/nano-ai-tts.js:278-282 | a new client loaded with `forceRefresh`, returning its voices |
| AudioBatch.RunCallsSplit | src/services/nano-ai-tts.js:236-246 | a run of calls split at any point is the first part followed by the second |
| AudioBatch.FirstFailure | src/services/nano-ai-tts.js:241-244 | the index of the first failed call: all before it succeeded |
| AudioBatch.BatchStart | src/services/nano-ai-tts.js:236 | chunk k is in the batch starting at the largest multiple of `concurrency` up to k |
| AudioBatch.BatchOutcome | src/services/nano-ai-tts.js:233-250 | it succeeds exactly when every call succeeds, with all buffers in chunk order; otherwise, with the calls of a batch taken in chunk order, the first failing chunk's error is reported, after exactly the calls up to the end of that chunk's batch |
| AudioBatch.BatchFixed | src/services/nano-ai-tts.js:233-250 | calls that keep the state keep it over the whole schedule |
| Md5.TableSizes | src/utils/md5.js:20-44 | the tables S and K have 64 entries each |
| Md5.RotateFacts | src/utils/md5.js:46-48 | for 0 < n < 32 `leftRotate(x, n)` is rotation left by n bits, and rotating back by 32 - n gives x |
| Md5.WordOfUint32LE | src/utils/md5.js:64-65 | a little-endian write read back little-endian gives the word |
| Md5.SetUint32LE | src/utils/md5.js:113-117 | `setUint32(off, v, true)` changes the four bytes at `off` to v least significant first, and nothing else |
| Md5.PaddedLengthLeast | src/utils/md5.js:56-67 | the padded length is the least multiple of 64 that is at least msgLen + 9 |
| Md5.Padded | src/utils/md5.js:54-67 | the message, 0x80, zero bytes, and the 64-bit bit length little-endian (low word first) |
| Md5.PadLoopStops | src/utils/md5.js:58-60 | the zero-padding loop stops at the first length ≡ 56 (mod 64) |
| Md5.PadMessage | src/utils/md5.js:53-67 | the padding loops produce exactly the padded message |
| Md5.WordIndex | src/utils/md5.js:85-97 | the word index g of each round lies in [0, 16) |
| Md5.WordIndexPermutes | src/utils/md5.js:82-99 | within each group of 16 rounds every word index occurs exactly once |
| Md5.RoundFunction | src/utils/md5.js:83-97 | F and g of round i, by the round's group |
| Md5.StepsNext | src/utils/md5.js:99-104 | one step moves the registers A..D as the four assignments do |
| Md5.CompressBlock | src/utils/md5.js:75-110 | the 64 steps on one block, added to the chaining values modulo 2^32 |
| Md5.ProcessBlocks | src/utils/md5.js:74-111 | the block loop computes the chain of compressions over all 64-byte blocks |
| Md5.Output | src/utils/md5.js:113-117 | the 16 output bytes are a0, b0, c0, d0 little-endian |
| Md5.Hex | src/utils/md5.js:119-121 | two lower-case hex digits per byte |
| Md5.UnhexHex | src/utils/md5.js:119-121 | the hex text reads back as the bytes |
| Md5.Md5Hex | src/utils/md5.js:113-121 | 32 lower-case hex digits that read back as the 16-byte digest |
| Md5.Utf8Ascii | src/utils/md5.js:51 | `TextEncoder` maps ASCII text to one byte per character |
| Md5.Utf8Append | src/utils/md5.js:51 | the encoding of a concatenation is the concatenation of the encodings |
| Md5.Md5Hash | src/utils/md5.js:50-122 | `md5Hash(message)` is the hex MD5 of the UTF-8 bytes |
| Md5Vectors.EmptyDigest | src/utils/md5.js:50-122 | `md5Hash("")` is d41d8cd98f00b204e9800998ecf8427e (RFC 1321 appendix A.5) |
| TextProcessor.Trim | src/services/text-processor.js:66 | `trim()`: no whitespace at either end; the same text once whitespace is deleted; no longer; empty exactly for all-whitespace text; a trimmed string is unchanged |
| TextProcessor.TrimIsSlice | src/services/text-processor.js:66 | the trimmed text is a contiguous slice of the input |
| TextProcessor.StripTags | src/services/text-processor.js:27 | after `replace(/<[^>]*>/g, '')` no `<` has a `>` after it |
| TextProcessor.StripTagsKeeps | src/services/text-processor.js:27 | a text without tags is unchanged |
| TextProcessor.UrlLength | src/services/text-processor.js:47 | a match is `https?://` and at least one non-whitespace character; it holds no whitespace after the scheme and extends to the next whitespace or the end, so it is the longest such match |
| TextProcessor.StripUrlsLeavesNone | src/services/text-processor.js:47 | after the replacement no URL is left anywhere |
| TextProcessor.WithoutEmojis | src/services/text-processor.js:51-58 | the reference filter keeps only characters of the input that lie in none of the four ranges |
| TextProcessor.RemoveEmojisExact | src/services/text-processor.js:53-57 | the four replacements delete exactly the characters of the four ranges and keep the rest in order |
| TextProcessor.CrlfToLf | src/services/text-processor.js:63 | only whitespace changes, and no new characters appear |
| TextProcessor.CollapseKeepsText | src/services/text-processor.js:64-65 | collapsing whitespace runs to one space loses no other character |
| TextProcessor.CollapseSpaces | src/services/text-processor.js:65 | after `/\s+/g → ' '` there is no whitespace but single spaces |
| TextProcessor.NormalizeWhitespace | src/services/text-processor.js:61-67 | the normalised text is trimmed, has no two adjacent spaces and no other whitespace, reads as the input without whitespace, and brings no new character |
| TextProcessor.CleanText | src/services/text-processor.js:14-70 | with `removeEmojis` no character of the four ranges remains; with `normalizeWhitespace` the result is trimmed with single plain spaces |
| TextProcessor.HasContentTrim | src/services/text-processor.js:88 | the filter `s && s.trim()` keeps exactly the pieces with a non-whitespace character |
| TextProcessor.KeepContentFacts | src/services/text-processor.js:88 | the filter keeps only pieces with content, and what it drops is whitespace |
| TextProcessor.SentencesFacts | src/services/text-processor.js:82-88 | every sentence has content, and together they read as the text |
| TextProcessor.WordsFromFacts | src/services/text-processor.js:103 | `split(/\s+/)` gives at least one piece, none with whitespace, together the text without its whitespace |
| TextProcessor.ChunkTextProperties | src/services/text-processor.js:76-131 | the corrected chunker: no chunks exactly for all-whitespace text; every chunk non-empty, trimmed, and within `maxChunkSize` unless it is one word; the chunks read out the text in order up to whitespace |
| TextProcessor.ChunkTextAsWrittenProperties | src/services/text-processor.js:76-131 | the chunker as written: no chunks exactly for all-whitespace text; every chunk non-empty, trimmed, and within `maxChunkSize + 1` unless it is one word |
| TextProcessor.WordStepAsWritten | src/services/text-processor.js:107-114 | a word that passes the test without the joining space makes a chunk at most one code unit over the limit; the word is added to what is read out |
| TextProcessor.SentenceStepAsWritten | src/services/text-processor.js:91-122 | one sentence as written keeps every chunk within `maxChunkSize + 1`, the kept-over `currentChunk` included; nothing is read out exactly when nothing was and the sentence is blank |
| TextProcessor.SentencesUpToAsWritten | src/services/text-processor.js:90-124 | the outer loop as written keeps those bounds over all sentences, and reads out nothing exactly when the sentences so far are blank |
| TextProcessor.SmartChunkText | src/services/text-processor.js:76-131 | the loops compute the corrected chunker and so have all of the properties above (corrected chunker) |
| TextProcessor.ChunkSentences | src/services/text-processor.js:90-124 | the outer loop computes the sentence fold (corrected chunker) |
| TextProcessor.ChunkSentence | src/services/text-processor.js:91-122 | one sentence: candidate, push, word path or `sentence.trim()` (corrected chunker) |
| TextProcessor.ChunkWords | src/services/text-processor.js:103-115 | the inner loop computes the word fold (corrected chunker) |
| TextProcessor.ChunkWord | src/services/text-processor.js:107-114 | one word joins the chunk or starts a new one (corrected chunker) |
| TextProcessor.OverlongChunk | src/services/text-processor.js:107 | as written, the chunker turns "a b" with limit 2 into the single 3-character chunk "a b" |
| TextProcessor.OverlongChunkCorrected | src/services/text-processor.js:107-108 | counting the joining space, the chunker gives "a" and "b" |
| TextProcessor.DuplicatedChunk | src/services/text-processor.js:117-119 | as written, "a。bb 。" with limit 1 yields ["a", "。", "bb", "。", "。"]: the "。" after "a", already pushed, stays in `currentChunk` and is pushed again |
| TextProcessor.DuplicatedChunkCorrected | src/services/text-processor.js:117-119 | taking `wordChunk` over, the chunker yields each piece once |
| TextProcessor.ProcessText | src/services/text-processor.js:136-169 | it throws for a non-string or empty input; it succeeds exactly when the cleaned length is within [minLength, maxLength]; `original` is the input unchanged and the chunks are those of the chunker on the cleaned text; otherwise it gives the too-short or too-long error (corrected chunker) |
| TextProcessor.ProcessTextChunks | src/services/text-processor.js:164-168 | with cleaning and minLength ≥ 1, the chunks are those of `smartChunkText` on the cleaned text, at least one, each good (corrected chunker) |
| TtsService.ValidateVoice | src/services/tts.js:48-55 | (corrected) it passes exactly when the voice is a key, and otherwise the message names the voice |
| TtsService.ValidateVoiceAsWritten | src/services/tts.js:50 | as written it also passes an inherited property name |
| TtsService.InheritedVoicePasses | src/services/tts.js:50 | "constructor" passes the check as written on the default map, although it is not a voice |
| TtsService.ValidateVoiceAgrees | src/services/tts.js:48-55 | on names that are not inherited the two checks agree |
| TtsService.Models | src/services/tts.js:25-36 | one model per voice key, in order, with `id` = key, `owned_by` 'nanoaitts', `root` 'bot.n.cn', and `created` the second of the clock reading taken for that entry |
| TtsService.ModelsCreatedInOrder | src/services/tts.js:27-30 | with a clock that does not run backwards, `created` does not decrease along the list |
| TtsService.ModelsAreVoices | src/services/tts.js:25-36 | the model ids are exactly the voice keys, without duplicates |
| TtsService.Service.GetModels | src/services/tts.js:25-36 | `getModels()` on the client's voices |
| TtsService.TextOptions | src/services/tts.js:83-87 | `processText` gets `maxLength`, `shouldClean` and `chunkSize`; every other option takes its default |
| TtsService.SynthesisPlan | src/services/tts.js:60-90 | a single request only with one chunk; an accepted plan keeps the original text (corrected voice check: own keys only) |
| TtsService.SynthesisPlanOrder | src/services/tts.js:71-90 | the voice is checked first, then speed, then pitch, then the text; a request goes out only when all pass, and it is a single request exactly with one chunk (corrected voice check: own keys only) |
| TtsService.CleanedPlanChunks | src/services/tts.js:82-108 | with cleaning, an accepted text has chunks that are all good, and a batch has at least two chunks (corrected chunker) |
| TtsService.BlankTextBatchesNothing | src/services/tts.js:82-108 | without cleaning, whitespace-only text is accepted and goes to a batch of no chunks |
| TtsService.SpeechOf | src/services/tts.js:92-114 | the result has format 'mp3', `stream` false, the original text and the chunk count |
| TtsService.Service.constructor | src/services/tts.js:10-13 | a new worker client with the given KV, nothing loaded |
| TtsService.Service.Init | src/services/tts.js:18-20 | `loadVoices()` without `forceRefresh` |
| TtsService.Service.RefreshVoices | src/services/tts.js:120-123 | reloads with `forceRefresh = true` and returns the resulting map |
| TtsService.Service.Synthesize | src/services/tts.js:60-115 | a rejection changes nothing; otherwise the state and result are those of `getAudio` on the one chunk or of `getAudioBatch` on all of them; success is always 'mp3', not streamed, with the original text (corrected voice check: own keys only) |
| Agreement.HashesAgree | src/services/nano-ai-tts.js:31-45 | on text within the BMP the JavaScript and Python `_e` give the same value |
| Agreement.HashValuesAgree | backend/app/services/tts_service.py:33-45 | the same, as integers |
| Agreement.TimestampsAgree | src/services/nano-ai-tts.js:86-95 | `getISO8601Time` and `get_iso8601_time` format the same clock reading identically |
| Agreement.HeadersAgree | src/services/nano-ai-tts.js:100-119 | over the same md5, timestamp and token, both clients send the same seven headers |
| Agreement.DescriptorsDiffer | src/services/nano-ai-tts.js:53-60 | the descriptors differ: JavaScript's is two characters shorter ("1" against "1.0") |

## Left out

- The Markdown stage of `cleanText` (src/services/text-processor.js:31-43) is the parameter `markdown`. Its lazy, order-sensitive regular expressions are not modelled.
- The remaining external effects are inputs, not modelled behaviour:
  - network and file I/O (`http_get`, `http_post`, `fetch`, the KV `get`/`put`, the cache file, `json.load`/`json.dump`); their outcomes are inputs;
  - the clock and randomness are inputs.
- Python's `round` of a float and the `str` of the float millisecond sum are inputs: the rounded integer `r` and `clockText`.
- Floating point in the JavaScript fingerprint is modelled only by `NanoAiTts.NearestDouble` (round to nearest even at 53 bits).
- `urllib.parse.quote` and `encodeURIComponent` are abstract encoders. `hashlib.md5` is the parameter `md5`; the agreement lemmas take it as the same function on both sides.
- `TextEncoder` on lone surrogates is not modelled, since Dafny characters are Unicode scalar values. `Md5.Utf8Encode` covers scalar values only.
- The async `md5` of src/utils/md5.js:4-16 (SHA-256 through `crypto.subtle`, unused by the clients) is not part of this model.
- The concurrency of `Promise.all` in `getAudioBatch` is modelled as the calls of a batch one after the other. The order of the results is the same.
- AudioBatch.BatchOutcome: the error reported is the first failing chunk's in chunk order. Under `Promise.all` it is the rejection that comes first in time, which can be a later chunk of the same batch.
- NanoAiTts.Client.GetAudioBatch: every call of the first batch starts its own `loadVoices` while the voices are not yet loaded. The model loads once, at the first call, since the calls run one after the other.
- NanoAiTts.Client.GetAudio: rejects every voice that is not an own key (HasVoice). The test at src/services/nano-ai-tts.js:199 lets inherited names such as "toString" through and sends a request for them. Only LookupTruthy and InheritedNamePasses model that.
- NanoAiTts.Client.SendAudio: rejects every voice that is not an own key (HasVoice). The test at src/services/nano-ai-tts.js:199 lets inherited names such as "toString" through and sends a request for them. Only LookupTruthy and InheritedNamePasses model that.
- NanoAiTts.Send: rejects every voice that is not an own key (HasVoice). The test at src/services/nano-ai-tts.js:199 lets inherited names such as "toString" through and sends a request for them. Only LookupTruthy and InheritedNamePasses model that.
- NanoAiTts.CallStepCases: rejects every voice that is not an own key (HasVoice). The test at src/services/nano-ai-tts.js:199 lets inherited names such as "toString" through and sends a request for them. Only LookupTruthy and InheritedNamePasses model that.
- TtsService.SynthesisPlanOrder: validates the voice with the own-key ValidateVoice. The test at src/services/tts.js:50 lets "constructor" and the other inherited names through. Only ValidateVoiceAsWritten and InheritedVoicePasses model that.
- TtsService.SynthesisPlan: validates the voice with the own-key ValidateVoice. The test at src/services/tts.js:50 lets "constructor" and the other inherited names through. Only ValidateVoiceAsWritten and InheritedVoicePasses model that.
- TtsService.Service.Synthesize: validates the voice with the own-key ValidateVoice. The test at src/services/tts.js:50 lets "constructor" and the other inherited names through. Only ValidateVoiceAsWritten and InheritedVoicePasses model that.
- JSON numbers are modelled as integers (`Json.Num`). A fractional number, and the exponent form that JavaScript's `String(n)` gives for |n| ≥ 1e21, are not represented, so a numeric `tag` or `title` is only modelled for integers written out in full (`NanoAiTts.JsToString`).
- A voice made of array-index digits would move to the front of a JavaScript object's key order. This is not modelled: keys keep insertion order.
- NanoAiTts.EntryOf: a vendor tag "__proto__" is stored as an own key. In JavaScript the assignment replaces the prototype of `this.voices` instead, so `Object.keys` and `getModels` never list that tag.
- `getAudioBatch` requires `concurrency >= 1`. With a `concurrency` of 0 or below, the source loops forever when there is at least one chunk, and returns an empty buffer when there are none, since the loop at src/services/nano-ai-tts.js:236 never runs.
- The `getVoices` getters (src/services/nano-ai-tts.js:186-188, src/services/tts.js:41-43) return the `voices` field. The model reads that field directly.
- `TTSService.kv` (src/services/tts.js:12) is only passed on to the worker client.
- The `stream` option of `synthesize` is read and never used.
- The speed and pitch values are used only in their range checks.
- TtsService.InRange: speed and pitch are real numbers. A NaN or non-numeric `speed` or `pitch` makes both comparisons at src/services/tts.js:74-79 false, so the source accepts it; the model has no such value.
- The Python `load_voices` treats a non-string `tag` as a failure that installs the default. Python would insert a non-string key, or raise for an unhashable one, and the model has only string keys.
- The HTTP plumbing is not modelled: routing, CORS, `StreamingResponse`, `/health`, app start-up, configuration and the frontend.
- TextProcessor.ChunkTextProperties: proves the limit `maxChunkSize` and the read-out property for the corrected chunker (`Corrected`) only. For the chunker as written (`AsWritten`), ChunkTextAsWrittenProperties proves the limit `maxChunkSize + 1` for chunks that are not one word, and no chunk exactly for blank text. Reading out the text is not claimed for the as-written chunker, since it can repeat a chunk.
- TextProcessor.SmartChunkText: the method follows the corrected chunker, not the one at src/services/text-processor.js:107 and 117-119.
- TextProcessor.ChunkSentences: the outer loop follows the corrected chunker, not the one at src/services/text-processor.js:107 and 117-119.
- TextProcessor.ChunkSentence: one sentence of the outer loop follows the corrected chunker, not the one at src/services/text-processor.js:107 and 117-119.
- TextProcessor.ChunkWords: the inner loop follows the corrected chunker, not the one at src/services/text-processor.js:107 and 117-119.
- TextProcessor.ChunkWord: one word of the inner loop follows the corrected chunker, not the one at src/services/text-processor.js:107 and 117-119.
- TextProcessor.ProcessText: the chunks of `processText` follow the corrected chunker, not the one at src/services/text-processor.js:107 and 117-119.
- TextProcessor.ProcessTextChunks: the chunk facts of `processText` follow the corrected chunker, not the one at src/services/text-processor.js:107 and 117-119.
- TtsService.CleanedPlanChunks: the chunk bound of `synthesize` follows the corrected chunker, not the one at src/services/text-processor.js:107 and 117-119.
- The JavaScript `_e` is related to the Python one only on BMP text, where both read the same units. Beyond the BMP, JavaScript sees two surrogates and Python one code point, so the hashes differ.

## Findings

| source | as written | input that shows it | evidently intended | confidence | as-written member | corrected member |
|---|---|---|---|---|---|---|
| src/services/nano-ai-tts.js:199 | `if (!this.voices[voice])` also finds properties inherited from `Object.prototype` | voice "toString" with the default voices: the check passes although it is not a key, and a request goes out for it | reject every voice that is not an own key | not executed | NanoAiTts.InheritedNamePasses | NanoAiTts.CallStepCases |
| src/services/tts.js:50 | `if (!voices[voice])` likewise passes inherited names | voice "constructor" with the default voices | throw "not found" for every voice that is not an own key | not executed | TtsService.InheritedVoicePasses | TtsService.ValidateVoice |
| src/services/text-processor.js:107 | the word test `(wordChunk + word).length <= maxChunkSize` omits the joining space | "a b" with maxChunkSize 2 yields the chunk "a b" of length 3 | no chunk longer than the limit unless it is one word | not executed | TextProcessor.OverlongChunk | TextProcessor.OverlongChunkCorrected |
| src/services/text-processor.js:117-119 | `if (wordChunk) currentChunk = wordChunk;` keeps the previous `currentChunk`, already pushed, when the word loop ends with an empty `wordChunk` | "a。bb 。" with maxChunkSize 1 yields ["a", "。", "bb", "。", "。"] | each piece of text in exactly one chunk | not executed | TextProcessor.DuplicatedChunk | TextProcessor.DuplicatedChunkCorrected |
