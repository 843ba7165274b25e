/**
  * The speech-synthesis edge function
  * (supabase/functions/text-to-speech/index.ts): the request defaults, the
  * text check, the API-key check, the voice-name to voice-ID table with its
  * fallback to Aria, and the error responses.
  */
module TextToSpeech {
  import opened Wrappers
  import opened JsString

  /** The `voiceIds` table of lines 27-33, in source order: voice name, provider voice ID. */
  const VoiceIds: seq<(string, string)> := [
    ("Aria", "9BWtsMINqrJLrRacOk9x"),
    ("Roger", "CwhRBWXzGAHq8TQ4Fs17"),
    ("Sarah", "EXAVITQu4vr4xnSDxMaL"),
    ("Laura", "FGY2WhTYpPnrIDTdsKH5"),
    ("Charlie", "IKne3meq5aSn9XLyUdCD")
  ]

  const AriaId: string := "9BWtsMINqrJLrRacOk9x"

  /** The voice a request without one gets (line 14). */
  const DefaultVoice: string := "Aria"

  /**
    * The properties every object literal inherits from `Object.prototype`,
    * each with the text it becomes inside a template literal.
    */
  const InheritedMembers: seq<(string, string)> := [
    ("constructor", "function Object() { [native code] }"),
    ("hasOwnProperty", "function hasOwnProperty() { [native code] }"),
    ("isPrototypeOf", "function isPrototypeOf() { [native code] }"),
    ("propertyIsEnumerable", "function propertyIsEnumerable() { [native code] }"),
    ("toLocaleString", "function toLocaleString() { [native code] }"),
    ("toString", "function toString() { [native code] }"),
    ("valueOf", "function valueOf() { [native code] }"),
    ("__defineGetter__", "function __defineGetter__() { [native code] }"),
    ("__defineSetter__", "function __defineSetter__() { [native code] }"),
    ("__lookupGetter__", "function __lookupGetter__() { [native code] }"),
    ("__lookupSetter__", "function __lookupSetter__() { [native code] }"),
    ("__proto__", "[object Object]")
  ]

  /** The value paired with the first entry named `name`. */
  function Lookup(entries: seq<(string, string)>, name: string): (r: Option<string>)
    ensures r.None? <==> forall i :: 0 <= i < |entries| ==> entries[i].0 != name
    ensures r.Some? ==> exists i :: 0 <= i < |entries| && entries[i] == (name, r.value)
  {
    if entries == [] then None
    else if entries[0].0 == name then Some(entries[0].1)
    else
      var r := Lookup(entries[1..], name);
      if r.Some? then
        var i :| 0 <= i < |entries[1..]| && entries[1..][i] == (name, r.value);
        assert entries[i + 1] == (name, r.value);
        r
      else
        assert forall i :: 1 <= i < |entries| ==> entries[i] == entries[1..][i - 1];
        r
  }

  ghost predicate IsTableId(id: string) {
    exists i :: 0 <= i < |VoiceIds| && VoiceIds[i].1 == id
  }

  predicate IsVoiceName(voice: string) {
    Lookup(VoiceIds, voice).Some?
  }

  // ---------------------------------------------------------------------------
  // The lookup as written (line 35)

  /** What `voiceIds[voice]` reads: an own entry, an inherited member, or nothing. */
  datatype Property = OwnId(id: string) | Inherited(rendered: string) | Undefined

  function PropertyOf(voice: string): Property {
    match Lookup(VoiceIds, voice)
    case Some(id) => OwnId(id)
    case None =>
      match Lookup(InheritedMembers, voice)
      case Some(rendered) => Inherited(rendered)
      case None => Undefined
  }

  /**
    * `voiceIds[voice] || voiceIds["Aria"]` as it ends up in the request URL:
    * an own ID, the rendering of an inherited member (a function or an
    * object is truthy), or Aria's ID.
    */
  function VoiceIdAsWritten(voice: string): (r: string)
    ensures IsVoiceName(voice) ==> r == Lookup(VoiceIds, voice).value
    ensures !IsVoiceName(voice) && Lookup(InheritedMembers, voice).None? ==> r == AriaId
  {
    match PropertyOf(voice)
    case OwnId(id) => id
    case Inherited(rendered) => rendered
    case Undefined => AriaId
  }

  lemma ConstructorIsNoVoice()
    ensures !IsVoiceName("constructor")
  {
    forall i | 0 <= i < |VoiceIds| ensures VoiceIds[i].0 != "constructor" {
      assert |VoiceIds[i].0| != |"constructor"|;
    }
  }

  /**
    * A voice named after an inherited member escapes the table: for
    * "constructor" the URL gets the text of a function instead of a voice ID.
    */
  lemma InheritedNameEscapesTable()
    ensures VoiceIdAsWritten("constructor") == "function Object() { [native code] }"
    ensures !IsTableId(VoiceIdAsWritten("constructor"))
  {
    ConstructorIsNoVoice();
    var rendered := "function Object() { [native code] }";
    assert Lookup(InheritedMembers, "constructor") == Some(rendered);
    forall i | 0 <= i < |VoiceIds| ensures VoiceIds[i].1 != rendered {
      assert |VoiceIds[i].1| != |rendered|;
    }
  }

  // ---------------------------------------------------------------------------
  // The lookup as intended

  /** An own-property lookup: a table name gets its ID, every other name Aria's. */
  function VoiceId(voice: string): (r: string)
    ensures IsTableId(r)
    ensures IsVoiceName(voice) ==> exists i :: 0 <= i < |VoiceIds| && VoiceIds[i] == (voice, r)
    ensures !IsVoiceName(voice) ==> r == AriaId
  {
    assert VoiceIds[0].1 == AriaId;
    match Lookup(VoiceIds, voice)
    case Some(id) => id
    case None => AriaId
  }

  /** Each of the five names maps to its own ID. */
  lemma NamedVoices()
    ensures VoiceId("Aria") == "9BWtsMINqrJLrRacOk9x"
    ensures VoiceId("Roger") == "CwhRBWXzGAHq8TQ4Fs17"
    ensures VoiceId("Sarah") == "EXAVITQu4vr4xnSDxMaL"
    ensures VoiceId("Laura") == "FGY2WhTYpPnrIDTdsKH5"
    ensures VoiceId("Charlie") == "IKne3meq5aSn9XLyUdCD"
  {
    VoiceAt(0);
    VoiceAt(1);
    VoiceAt(2);
    VoiceAt(3);
    VoiceAt(4);
  }

  /** The k-th table entry is the one its name finds (the names start with distinct letters). */
  lemma VoiceAt(k: nat)
    requires k < |VoiceIds|
    ensures VoiceId(VoiceIds[k].0) == VoiceIds[k].1
  {
    forall j | 0 <= j < k ensures VoiceIds[j].0 != VoiceIds[k].0 {
      assert VoiceIds[j].0[0] != VoiceIds[k].0[0];
    }
    LookupFirst(VoiceIds, k);
  }

  /** An entry whose name no earlier entry has is the one the lookup finds. */
  lemma {:induction false} LookupFirst(entries: seq<(string, string)>, k: nat)
    requires k < |entries| && forall j :: 0 <= j < k ==> entries[j].0 != entries[k].0
    ensures Lookup(entries, entries[k].0) == Some(entries[k].1)
  {
    if k > 0 {
      LookupFirst(entries[1..], k - 1);
    }
  }

  /** Names are case-sensitive: "aria" is not a table name and falls back to Aria's ID. */
  lemma NamesAreCaseSensitive()
    ensures VoiceId("aria") == AriaId && !IsVoiceName("aria")
  {
    assert "aria" != "Aria" && "aria" != "Roger" && "aria" != "Sarah" && "aria" != "Laura";
  }

  /** Wherever no inherited member is involved, the intended lookup is the one written. */
  lemma VoiceIdAgreesOffPrototype(voice: string)
    requires Lookup(InheritedMembers, voice).None?
    ensures VoiceIdAsWritten(voice) == VoiceId(voice)
  {
  }

  // ---------------------------------------------------------------------------
  // The handler (lines 8-76)

  /**
    * The parsed request: a CORS preflight, a body that is not JSON (with
    * the parser's message), or the `text` and `voice` fields, each absent
    * when the body leaves them undefined.
    */
  datatype TtsRequest =
    | Preflight
    | Unparseable(parseError: string)
    | Body(text: Option<string>, voice: Option<string>)

  /** What the provider's `fetch` gave back. */
  datatype Upstream =
    | FetchFailed(error: string)
    | NotOk(status: nat)
    | Audio(base64: string)

  datatype TtsResponse =
    | CorsOnly
    | JsonError(status: nat, error: string)
    | AudioContent(audioContent: string)

  /** The provider request: the voice ID in the URL path and the text in the body. */
  datatype Synthesis = Synthesis(voiceId: string, text: string)

  datatype Handled = Handled(response: TtsResponse, sent: Option<Synthesis>)

  /**
    * The request handler. `apiKey` is `Deno.env.get('ELEVEN_LABS_API_KEY')`;
    * `sent` is the request made to the provider, if any.
    */
  function HandleTts(request: TtsRequest, apiKey: Option<string>, upstream: Upstream): (r: Handled)
    ensures request.Preflight? ==> r == Handled(CorsOnly, None)
    ensures request.Unparseable? ==> r == Handled(JsonError(500, request.parseError), None)
    ensures request.Body? && (request.text.None? || request.text == Some("")) ==>
      r == Handled(JsonError(500, "Text is required"), None)
    ensures request.Body? && request.text.Some? && request.text.value != "" && (apiKey.None? || apiKey == Some("")) ==>
      r == Handled(JsonError(500, "ELEVEN_LABS_API_KEY is not configured"), None)
    ensures request.Body? && request.text.Some? && request.text.value != "" && apiKey.Some? && apiKey.value != "" ==>
      r.sent.Some?
    ensures r.sent.Some? ==>
      && request.Body? && request.text == Some(r.sent.value.text) && r.sent.value.text != ""
      && apiKey.Some? && apiKey.value != ""
      && r.sent.value.voiceId == VoiceIdAsWritten(if request.voice.Some? then request.voice.value else DefaultVoice)
    ensures r.sent.Some? && Lookup(InheritedMembers, if request.voice.Some? then request.voice.value else DefaultVoice).None? ==>
      && IsTableId(r.sent.value.voiceId)
      && r.sent.value.voiceId == VoiceId(if request.voice.Some? then request.voice.value else DefaultVoice)
    ensures r.sent.Some? ==>
      && (upstream.FetchFailed? ==> r.response == JsonError(500, upstream.error))
      && (upstream.NotOk? ==> r.response == JsonError(500, "TTS API error: " + NatToDecimal(upstream.status)))
      && (upstream.Audio? ==> r.response == AudioContent(upstream.base64))
    ensures r.response.AudioContent? ==> r.sent.Some?
  {
    match request
    case Preflight => Handled(CorsOnly, None)
    case Unparseable(e) => Handled(JsonError(500, e), None)
    case Body(text, voice) =>
      if text.None? || text.value == "" then Handled(JsonError(500, "Text is required"), None)
      else if apiKey.None? || apiKey.value == "" then Handled(JsonError(500, "ELEVEN_LABS_API_KEY is not configured"), None)
      else
        Respond(upstream, Synthesis(SentVoiceId(if voice.Some? then voice.value else DefaultVoice), text.value))
  }

  /** The voice ID the handler puts in the URL: the lookup as written, a table ID off the prototype. */
  function SentVoiceId(voice: string): (r: string)
    ensures r == VoiceIdAsWritten(voice)
    ensures Lookup(InheritedMembers, voice).None? ==> IsTableId(r) && r == VoiceId(voice)
  {
    if Lookup(InheritedMembers, voice).None? then
      VoiceIdAgreesOffPrototype(voice);
      VoiceIdAsWritten(voice)
    else
      VoiceIdAsWritten(voice)
  }

  /** The response to the provider's answer, once the request `call` was sent. */
  function Respond(upstream: Upstream, call: Synthesis): (r: Handled)
    ensures r.sent == Some(call)
    ensures upstream.FetchFailed? ==> r.response == JsonError(500, upstream.error)
    ensures upstream.NotOk? ==> r.response == JsonError(500, "TTS API error: " + NatToDecimal(upstream.status))
    ensures upstream.Audio? ==> r.response == AudioContent(upstream.base64)
  {
    match upstream
    case FetchFailed(e) => Handled(JsonError(500, e), Some(call))
    case NotOk(status) => Handled(JsonError(500, "TTS API error: " + NatToDecimal(status)), Some(call))
    case Audio(base64) => Handled(AudioContent(base64), Some(call))
  }

  /** A request without a voice is spoken with Aria's voice. */
  lemma OmittedVoiceIsAria(text: string, apiKey: string, upstream: Upstream)
    requires text != "" && apiKey != ""
    ensures HandleTts(Body(Some(text), None), Some(apiKey), upstream).sent == Some(Synthesis(AriaId, text))
  {
    NamedVoices();
  }

  /**
    * The handler as written sends the text of the `Object` function as the
    * voice ID of a request whose voice is "constructor": no table ID.
    */
  lemma ConstructorVoiceLeavesTable(text: string, apiKey: string, upstream: Upstream)
    requires text != "" && apiKey != ""
    ensures var sent := HandleTts(Body(Some(text), Some("constructor")), Some(apiKey), upstream).sent;
      && sent == Some(Synthesis("function Object() { [native code] }", text))
      && !IsTableId(sent.value.voiceId)
  {
    InheritedNameEscapesTable();
  }
}
