/** The Wyoming text-to-speech proxy: a synthesize request becomes one HTTP request to
    the speech service, and the returned WAV audio is streamed back as an audio-start
    event, a run of audio-chunk events and an audio-stop event. */
module WyomingProxy {
  import opened Wrappers
  import opened Text

  /** PCM samples per audio-chunk event. */
  const SamplesPerChunk := 1024
  const DefaultLanguage := "en-us"

  /** Kokoro voice prefix to language tag. */
  const LangMap: map<string, string> := map[
    "af" := "en-us", "am" := "en-us", "bf" := "en-gb", "bm" := "en-gb",
    "ef" := "es-es", "ff" := "fr-fr", "hf" := "hi-in", "if" := "it-it",
    "jf" := "ja-jp", "kf" := "ko-kr", "pf" := "pt-br", "zf" := "zh-cn",
    "zm" := "zh-cn"]

  // ---------------------------------------------------------------- chunking

  function Min(a: int, b: int): int {
    if a <= b then a else b
  }

  /** The PCM data cut into consecutive slices of `n` bytes; the last may be shorter. */
  function Chunks(pcm: seq<bv8>, n: nat): seq<seq<bv8>>
    requires n >= 1
    decreases |pcm|
  {
    if pcm == [] then [] else [pcm[..Min(n, |pcm|)]] + Chunks(pcm[Min(n, |pcm|)..], n)
  }

  function Flatten(chunks: seq<seq<bv8>>): seq<bv8> {
    if chunks == [] then [] else chunks[0] + Flatten(chunks[1..])
  }

  /** Chunking loses nothing and adds nothing: the chunks put back together are the PCM
      data. Every chunk is non-empty, every chunk but the last holds exactly `n` bytes,
      and the last holds at most `n`; no PCM means no chunks. */
  lemma {:induction false} ChunksPartition(pcm: seq<bv8>, n: nat)
    requires n >= 1
    ensures Flatten(Chunks(pcm, n)) == pcm
    ensures Chunks(pcm, n) == [] <==> pcm == []
    ensures forall i :: 0 <= i < |Chunks(pcm, n)| ==> 1 <= |Chunks(pcm, n)[i]| <= n
    ensures forall i :: 0 <= i < |Chunks(pcm, n)| - 1 ==> |Chunks(pcm, n)[i]| == n
    decreases |pcm|
  {
    if pcm != [] {
      var k := Min(n, |pcm|);
      var rest := Chunks(pcm[k..], n);
      ChunksPartition(pcm[k..], n);
      var cs := Chunks(pcm, n);
      assert cs[1..] == rest;
      assert pcm[..k] + pcm[k..] == pcm;
      if rest != [] {
        assert k == n;
      }
      forall i | 1 <= i < |cs| ensures 1 <= |cs[i]| <= n {
        assert cs[i] == rest[i - 1];
      }
      forall i | 1 <= i < |cs| - 1 ensures |cs[i]| == n {
        assert cs[i] == rest[i - 1];
      }
    }
  }

  function Tail(pcm: seq<bv8>, offset: nat): seq<bv8> {
    if offset <= |pcm| then pcm[offset..] else []
  }

  /** The streaming loop: `pcm[offset : offset + n]` until the offset passes the end. */
  method ChunkPcm(pcm: seq<bv8>, n: nat) returns (chunks: seq<seq<bv8>>)
    requires n >= 1
    ensures chunks == Chunks(pcm, n)
  {
    chunks := [];
    var offset := 0;
    while offset < |pcm|
      invariant chunks + Chunks(Tail(pcm, offset), n) == Chunks(pcm, n)
      decreases |pcm| - offset
    {
      var chunk := pcm[offset..Min(offset + n, |pcm|)];
      ChunkStep(pcm, n, offset, chunks, chunk);
      chunks := chunks + [chunk];
      offset := offset + n;
    }
    ChunkDone(pcm, n, offset, chunks);
  }

  /** The loop advances by one chunk: `chunk` moves from the rest onto the list. */
  lemma ChunkStep(pcm: seq<bv8>, n: nat, offset: nat, chunks: seq<seq<bv8>>, chunk: seq<bv8>)
    requires n >= 1 && offset < |pcm| && chunk == pcm[offset..Min(offset + n, |pcm|)]
    ensures chunks + Chunks(Tail(pcm, offset), n) == (chunks + [chunk]) + Chunks(Tail(pcm, offset + n), n)
  {
    var t := pcm[offset..];
    var k := Min(n, |t|);
    assert t[..k] == chunk;
    assert t[k..] == Tail(pcm, offset + n);
    AppendAssociative(chunks, [chunk], Chunks(Tail(pcm, offset + n), n));
  }

  lemma ChunkDone(pcm: seq<bv8>, n: nat, offset: nat, chunks: seq<seq<bv8>>)
    requires n >= 1 && offset >= |pcm|
    requires chunks + Chunks(Tail(pcm, offset), n) == Chunks(pcm, n)
    ensures chunks == Chunks(pcm, n)
  {
    assert Tail(pcm, offset) == [];
    assert chunks + [] == chunks;
  }

  // ---------------------------------------------------------------- voices

  /** The request's voice name, falling back to the default when there is no voice or
      its name is empty. */
  function VoiceName(voice: Option<Option<string>>, defaultVoice: string): (r: string)
    ensures voice.Some? && voice.value.Some? && voice.value.value != "" ==> r == voice.value.value
    ensures !(voice.Some? && voice.value.Some? && voice.value.value != "") ==> r == defaultVoice
  {
    if voice.Some? && voice.value.Some? && voice.value.value != "" then voice.value.value else defaultVoice
  }

  predicate Contains(s: string, c: char) {
    exists i :: 0 <= i < |s| && s[i] == c
  }

  /** The language of a voice: the text before the first `_` looked up in the map, with
      `en-us` for names without `_` and for unknown prefixes. */
  function LangOf(name: string): (r: string)
    ensures r == DefaultLanguage || r in LangMap.Values
  {
    var prefix := if Contains(name, '_') then Split(name, '_')[0] else "";
    if prefix in LangMap then LangMap[prefix] else DefaultLanguage
  }

  /** The first piece of a split is the text before the first separator. */
  lemma {:induction false} SplitFirst(p: string, sep: char, rest: string)
    requires forall i :: 0 <= i < |p| ==> p[i] != sep
    ensures Split(p + [sep] + rest, sep)[0] == p
    decreases |p|
  {
    if p == [] {
      assert p + [sep] + rest == [sep] + rest;
      assert ([sep] + rest)[1..] == rest;
    } else {
      var s := p + [sep] + rest;
      assert s[1..] == p[1..] + [sep] + rest;
      SplitFirst(p[1..], sep, rest);
      assert [p[0]] + p[1..] == p;
    }
  }

  /** A voice named `<prefix>_<rest>` with a known prefix gets that prefix's language. */
  lemma LangOfKnownPrefix(prefix: string, rest: string)
    requires prefix in LangMap
    requires forall i :: 0 <= i < |prefix| ==> prefix[i] != '_'
    ensures LangOf(prefix + "_" + rest) == LangMap[prefix]
  {
    var name := prefix + "_" + rest;
    assert name[|prefix|] == '_';
    SplitFirst(prefix, '_', rest);
  }

  /** A voice named `<prefix>_<rest>` with a prefix not in the map gets the default
      language. */
  lemma LangOfUnknownPrefix(prefix: string, rest: string)
    requires prefix !in LangMap
    requires forall i :: 0 <= i < |prefix| ==> prefix[i] != '_'
    ensures LangOf(prefix + "_" + rest) == DefaultLanguage
  {
    var name := prefix + "_" + rest;
    assert name[|prefix|] == '_';
    SplitFirst(prefix, '_', rest);
  }

  /** A voice name without `_` gets the default language. */
  lemma LangOfNoUnderscore(name: string)
    requires forall i :: 0 <= i < |name| ==> name[i] != '_'
    ensures LangOf(name) == DefaultLanguage
  {
    assert "" !in LangMap;
  }

  datatype TtsVoice = TtsVoice(name: string, description: string, languages: seq<string>)

  function VoiceOf(name: string): TtsVoice {
    TtsVoice(name, name, [LangOf(name)])
  }

  /** The voice list: `fetch` answers the voices request, `None` when it fails; on
      failure the list is the default voice alone. */
  method FetchVoices(kokoroUrl: string, defaultVoice: string, fetch: string -> Option<seq<string>>)
    returns (voices: seq<TtsVoice>)
    ensures var names := match fetch(kokoroUrl + "/v1/audio/voices") case Some(ns) => ns case None => [defaultVoice];
      && |voices| == |names|
      && forall i :: 0 <= i < |names| ==> voices[i] == TtsVoice(names[i], names[i], [LangOf(names[i])])
    ensures fetch(kokoroUrl + "/v1/audio/voices").None? ==> voices == [VoiceOf(defaultVoice)]
  {
    var names: seq<string>;
    match fetch(kokoroUrl + "/v1/audio/voices") {
      case Some(ns) => names := ns;
      case None => names := [defaultVoice];
    }
    voices := [];
    for i := 0 to |names|
      invariant |voices| == i
      invariant forall j :: 0 <= j < i ==> voices[j] == VoiceOf(names[j])
    {
      voices := voices + [VoiceOf(names[i])];
    }
  }

  // ---------------------------------------------------------------- events

  datatype Voice = Voice(name: Option<string>)

  datatype Incoming = Describe | Synthesize(text: string, voice: Option<Voice>) | OtherEvent

  datatype WyEvent =
    | InfoEvent
    | AudioStart(rate: nat, width: nat, channels: nat)
    | AudioChunk(audio: seq<bv8>, rate: nat, width: nat, channels: nat)
    | AudioStop

  datatype SpeechRequest = SpeechRequest(url: string, model: string, input: string, voice: string, speed: real, responseFormat: string)

  /** The parameters and frames of a WAV file. */
  datatype WavInfo = WavInfo(rate: nat, width: nat, channels: nat, pcm: seq<bv8>)

  function ChunkEvents(chunks: seq<seq<bv8>>, w: WavInfo): (r: seq<WyEvent>)
    ensures |r| == |chunks|
    ensures forall i :: 0 <= i < |chunks| ==> r[i] == AudioChunk(chunks[i], w.rate, w.width, w.channels)
  {
    seq(|chunks|, i requires 0 <= i < |chunks| => AudioChunk(chunks[i], w.rate, w.width, w.channels))
  }

  class KokoroWyomingHandler {
    const kokoroUrl: string
    const defaultVoice: string
    const defaultSpeed: real

    constructor(kokoroUrl: string, defaultVoice: string, defaultSpeed: real)
      ensures this.kokoroUrl == RStripChar(kokoroUrl, '/')
      ensures this.defaultVoice == defaultVoice && this.defaultSpeed == defaultSpeed
    {
      this.kokoroUrl := RStripChar(kokoroUrl, '/');
      this.defaultVoice := defaultVoice;
      this.defaultSpeed := defaultSpeed;
    }

    function SpeechRequestFor(text: string, voice: Option<Voice>): SpeechRequest
      reads this
    {
      var name := VoiceName(if voice.Some? then Some(voice.value.name) else None, defaultVoice);
      SpeechRequest(kokoroUrl + "/v1/audio/speech", "kokoro", text, name, defaultSpeed, "wav")
    }

    /** One incoming event and the events written back. `post` performs the speech
        request (`None` when it fails) and `readWav` parses the returned WAV bytes
        (`None` when the `wave` module rejects them, which ends the handler with an
        error). */
    method HandleEvent(event: Incoming, post: SpeechRequest -> Option<seq<bv8>>, readWav: seq<bv8> -> Option<WavInfo>)
      returns (r: Result<seq<WyEvent>, string>)
      ensures event.Describe? ==> r == Success([InfoEvent])
      ensures event.OtherEvent? ==> r == Success([])
      ensures event.Synthesize? && post(SpeechRequestFor(event.text, event.voice)).None? ==> r == Success([])
      ensures event.Synthesize? && post(SpeechRequestFor(event.text, event.voice)).Some? ==>
        var wav := readWav(post(SpeechRequestFor(event.text, event.voice)).value);
        && (wav.None? ==> r.Failure?)
        && (wav.Some? && (wav.value.width == 0 || wav.value.channels == 0) ==> r.Failure?)
        && (wav.Some? && wav.value.width >= 1 && wav.value.channels >= 1 ==>
              var w := wav.value;
              r == Success([AudioStart(w.rate, w.width, w.channels)]
                           + ChunkEvents(Chunks(w.pcm, SamplesPerChunk * w.width * w.channels), w)
                           + [AudioStop]))
    {
      match event {
        case Describe => return Success([InfoEvent]);
        case OtherEvent => return Success([]);
        case Synthesize(text, voice) =>
          var audio := post(SpeechRequestFor(text, voice));
          if audio.None? {
            return Success([]);
          }
          var wav := readWav(audio.value);
          if wav.None? || wav.value.width == 0 || wav.value.channels == 0 {
            return Failure("wave.Error");
          }
          var w := wav.value;
          var chunks := ChunkPcm(w.pcm, SamplesPerChunk * w.width * w.channels);
          var events := [AudioStart(w.rate, w.width, w.channels)];
          for i := 0 to |chunks|
            invariant events == [AudioStart(w.rate, w.width, w.channels)] + ChunkEvents(chunks[..i], w)
          {
            events := events + [AudioChunk(chunks[i], w.rate, w.width, w.channels)];
            assert ChunkEvents(chunks[..i + 1], w) == ChunkEvents(chunks[..i], w) + [AudioChunk(chunks[i], w.rate, w.width, w.channels)];
          }
          assert chunks[..|chunks|] == chunks;
          r := Success(events + [AudioStop]);
      }
    }
  }

  /** What a successful synthesis writes: one start first, one stop last, and between
      them chunks whose payloads put back together are exactly the PCM data, each holding
      `1024 * width * channels` bytes except a shorter, non-empty last one. */
  lemma SynthesisFraming(w: WavInfo)
    requires w.width >= 1 && w.channels >= 1
    ensures var n := SamplesPerChunk * w.width * w.channels;
      var cs := Chunks(w.pcm, n);
      var events := [AudioStart(w.rate, w.width, w.channels)] + ChunkEvents(cs, w) + [AudioStop];
      && events[0].AudioStart? && events[|events| - 1].AudioStop?
      && (forall i :: 1 <= i < |events| - 1 ==> events[i].AudioChunk?)
      && Flatten(cs) == w.pcm
      && (w.pcm == [] <==> |events| == 2)
      && (forall i :: 0 <= i < |cs| - 1 ==> |cs[i]| == n)
      && (forall i :: 0 <= i < |cs| ==> 1 <= |cs[i]| <= n)
  {
    var n := SamplesPerChunk * w.width * w.channels;
    assert n >= 1 by {
      assert w.width * w.channels >= 1;
    }
    ChunksPartition(w.pcm, n);
  }
}
