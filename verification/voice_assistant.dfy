/**
  * `processVoiceInput` of the `useVoiceAssistant` hook: an utterance either
  * resolves to a local action (a Google search or one of eleven sites) that
  * opens a URL and answers at once, or is sent to the chat function, whose
  * reply is appended and spoken.
  */
module VoiceAssistant {
  import opened Wrappers
  import opened JsString
  import opened Lists
  import UriComponent
  import opened ConversationHistory

  // ---------------------------------------------------------------------------
  // The trigger chain

  /** The search trigger phrases, in the order the pattern alternates them. */
  const SearchPhrases: seq<string> := ["google search", "गूगल सर्च", "search on google", "गूगल पर सर्च"]

  const SearchUrlPrefix: string := "https://www.google.com/search?q="
  const SearchReplyPrefix: string := "Google search खोल रहा हूं: "

  /** A site the dispatcher can open: its trigger phrases, URL and spoken reply. */
  datatype Site = Site(triggers: seq<string>, url: string, reply: string)

  /**
    * The site checks in source order: YouTube, WhatsApp, Instagram, ChatGPT,
    * Canva, VS Code, Gmail, Facebook, Twitter/X, LinkedIn, GitHub.
    */
  const Sites: seq<Site> := [
      Site(["open youtube", "youtube खोलो", "youtube खोल", "youtube open"],
           "https://www.youtube.com", "YouTube खोल रहा हूं..."),
      Site(["open whatsapp", "whatsapp खोलो", "whatsapp खोल", "whatsapp open"],
           "https://web.whatsapp.com", "WhatsApp Web खोल रहा हूं..."),
      Site(["open instagram", "instagram खोलो", "instagram खोल", "instagram open"],
           "https://www.instagram.com", "Instagram खोल रहा हूं..."),
      Site(["open chatgpt", "chatgpt खोलो", "chatgpt खोल", "chat gpt"],
           "https://chat.openai.com", "ChatGPT खोल रहा हूं..."),
      Site(["open canva", "canva खोलो", "canva खोल"],
           "https://www.canva.com", "Canva खोल रहा हूं..."),
      Site(["open vscode", "visual studio code", "vs code", "वीएस कोड"],
           "https://vscode.dev", "VS Code Web खोल रहा हूं..."),
      Site(["open gmail", "gmail खोलो", "gmail खोल", "email"],
           "https://mail.google.com", "Gmail खोल रहा हूं..."),
      Site(["open facebook", "facebook खोलो", "facebook खोल"],
           "https://www.facebook.com", "Facebook खोल रहा हूं..."),
      Site(["open twitter", "twitter खोलो", "open x", "twitter खोल"],
           "https://x.com", "Twitter/X खोल रहा हूं..."),
      Site(["open linkedin", "linkedin खोलो", "linkedin खोल"],
           "https://www.linkedin.com", "LinkedIn खोल रहा हूं..."),
      Site(["open github", "github खोलो", "github खोल"],
           "https://github.com", "GitHub खोल रहा हूं...")
    ]

  const GmailIndex: nat := 6
  const TwitterIndex: nat := 8

  /** Some phrase of `phrases` occurs in `s`. */
  predicate ContainsAny(s: string, phrases: seq<string>) {
    exists k :: 0 <= k < |phrases| && Contains(s, phrases[k])
  }

  /** The lowered utterance mentions one of the site's trigger phrases. */
  predicate Triggers(lower: string, site: Site) {
    ContainsAny(lower, site.triggers)
  }

  function TriggeredBy(lower: string): Site -> bool {
    (site: Site) => Triggers(lower, site)
  }

  /** The index of the first phrase that starts `s`, ignoring ASCII case, or `|phrases|`. */
  function PhraseAtStart(s: string, phrases: seq<string>): (k: nat)
    ensures k <= |phrases|
    ensures k < |phrases| ==> StartsWithIgnoringCase(s, phrases[k])
    ensures forall j :: 0 <= j < k ==> !StartsWithIgnoringCase(s, phrases[j])
  {
    if phrases == [] then 0
    else if StartsWithIgnoringCase(s, phrases[0]) then 0
    else
      var k := 1 + PhraseAtStart(s, phrases[1..]);
      assert forall j :: 1 <= j < |phrases| ==> phrases[j] == phrases[1..][j - 1];
      k
  }

  /**
    * `s.replace(/p0|p1|.../gi, '')`: scanning left to right, an occurrence
    * of the first alternative that matches at the current position is
    * deleted and the scan resumes after it; otherwise one character is kept.
    */
  function RemovePhrases(s: string, phrases: seq<string>): (r: string)
    requires forall k :: 0 <= k < |phrases| ==> phrases[k] != []
    ensures |r| <= |s|
    decreases |s|
  {
    if s == [] then []
    else
      var k := PhraseAtStart(s, phrases);
      if k < |phrases| then RemovePhrases(s[|phrases[k]|..], phrases)
      else [s[0]] + RemovePhrases(s[1..], phrases)
  }

  /** With no phrase anywhere in it, the text is left as it is. */
  lemma {:induction false} RemoveAbsentPhrases(s: string, phrases: seq<string>)
    requires forall k :: 0 <= k < |phrases| ==> phrases[k] != []
    requires forall i, k :: 0 <= i <= |s| && 0 <= k < |phrases| ==> !StartsWithIgnoringCase(s[i..], phrases[k])
    ensures RemovePhrases(s, phrases) == s
    decreases |s|
  {
    if s != [] {
      assert forall k :: 0 <= k < |phrases| ==> !StartsWithIgnoringCase(s[0..], phrases[k]);
      assert s[0..] == s;
      forall i, k | 0 <= i <= |s[1..]| && 0 <= k < |phrases| ensures !StartsWithIgnoringCase(s[1..][i..], phrases[k]) {
        assert s[1..][i..] == s[i + 1..];
      }
      RemoveAbsentPhrases(s[1..], phrases);
      HeadTail(s);
    }
  }

  /**
    * The search query: the utterance with every trigger phrase deleted,
    * trimmed. It has no whitespace at either end and is no longer than the
    * utterance.
    */
  function SearchQuery(utterance: string): (r: string)
    ensures NoEdgeWhitespace(r)
    ensures |r| <= |utterance|
  {
    SearchPhrasesNonEmpty();
    var removed := RemovePhrases(utterance, SearchPhrases);
    Trim(removed)
  }

  lemma SearchPhrasesNonEmpty()
    ensures forall k :: 0 <= k < |SearchPhrases| ==> SearchPhrases[k] != []
  {
  }

  /** A search trigger is present and something is left to search for. */
  predicate SearchFires(lower: string, utterance: string) {
    ContainsAny(lower, SearchPhrases) && SearchQuery(utterance) != []
  }

  /** What an utterance resolves to locally. */
  datatype Intent = WebSearch(query: string) | OpenSite(index: nat)

  /** The URL `window.open` gets: a search opens Google with the encoded query, a site its own URL. */
  function IntentUrl(intent: Intent): (r: string)
    requires intent.OpenSite? ==> intent.index < |Sites|
    ensures intent.WebSearch? ==> SearchUrlPrefix <= r && |r| >= |SearchUrlPrefix| + |intent.query|
  {
    match intent
    case WebSearch(q) => SearchUrlPrefix + UriComponent.Encode(q)
    case OpenSite(i) => Sites[i].url
  }

  /** The reply shown and spoken: a search echoes its query after the fixed text, a site has its own. */
  function IntentReply(intent: Intent): (r: string)
    requires intent.OpenSite? ==> intent.index < |Sites|
    ensures intent.WebSearch? ==> SearchReplyPrefix <= r && r[|SearchReplyPrefix|..] == intent.query
  {
    match intent
    case WebSearch(q) => SearchReplyPrefix + q
    case OpenSite(i) => Sites[i].reply
  }

  /**
    * The if-chain of lines 24-168: search first, then the first site (in
    * table order) with a trigger phrase in the lowered utterance; none when
    * nothing matches, which sends the utterance to the chat function.
    */
  function Resolve(lower: string, utterance: string): (r: Option<Intent>)
    ensures SearchFires(lower, utterance) ==> r == Some(WebSearch(SearchQuery(utterance)))
    ensures !SearchFires(lower, utterance) ==>
      forall i: nat :: r == Some(OpenSite(i)) <==> FirstAt(Sites, TriggeredBy(lower), i)
    ensures r.None? <==> !SearchFires(lower, utterance) && forall i :: 0 <= i < |Sites| ==> !Triggers(lower, Sites[i])
    ensures r.Some? && r.value.OpenSite? ==> r.value.index < |Sites|
  {
    if SearchFires(lower, utterance) then Some(WebSearch(SearchQuery(utterance)))
    else
      var k := FindIndex(Sites, TriggeredBy(lower));
      assert forall i: nat :: k == Some(i) <==> FirstAt(Sites, TriggeredBy(lower), i) by {
        forall i: nat ensures k == Some(i) <==> FirstAt(Sites, TriggeredBy(lower), i) {
          if FirstAt(Sites, TriggeredBy(lower), i) {
            FirstAtUnique(Sites, TriggeredBy(lower), i, k.value);
          }
        }
      }
      if k.Some? then Some(OpenSite(k.value)) else None
  }

  /** An earlier site wins over any later one the utterance also triggers. */
  lemma EarlierSiteWins(lower: string, utterance: string, i: nat, j: nat)
    requires !SearchFires(lower, utterance)
    requires i < j < |Sites| && Triggers(lower, Sites[i]) && Triggers(lower, Sites[j])
    ensures Resolve(lower, utterance) != Some(OpenSite(j))
  {
    assert TriggeredBy(lower)(Sites[i]);
  }

  /** The first triggered site, when search does not fire, is the one opened. */
  lemma FirstTriggeredSiteOpens(lower: string, utterance: string, i: nat)
    requires !SearchFires(lower, utterance)
    requires i < |Sites| && Triggers(lower, Sites[i])
    requires forall j :: 0 <= j < i ==> !Triggers(lower, Sites[j])
    ensures Resolve(lower, utterance) == Some(OpenSite(i))
  {
    assert FirstAt(Sites, TriggeredBy(lower), i);
  }

  /** "email" anywhere in the utterance opens Gmail, unless an earlier check matched. */
  lemma EmailOpensGmail(lower: string, utterance: string)
    requires !SearchFires(lower, utterance)
    requires Contains(lower, "email")
    requires forall j :: 0 <= j < GmailIndex ==> !Triggers(lower, Sites[j])
    ensures Resolve(lower, utterance) == Some(OpenSite(GmailIndex))
    ensures IntentUrl(OpenSite(GmailIndex)) == "https://mail.google.com"
  {
    var gmail := Sites[GmailIndex];
    assert gmail.triggers[3] == "email";
    assert Triggers(lower, gmail);
    FirstTriggeredSiteOpens(lower, utterance, GmailIndex);
  }

  /** "open x" anywhere (so also in "open xbox") opens Twitter/X, unless an earlier check matched. */
  lemma OpenXOpensTwitter(lower: string, utterance: string)
    requires !SearchFires(lower, utterance)
    requires Contains(lower, "open x")
    requires forall j :: 0 <= j < TwitterIndex ==> !Triggers(lower, Sites[j])
    ensures Resolve(lower, utterance) == Some(OpenSite(TwitterIndex))
    ensures IntentUrl(OpenSite(TwitterIndex)) == "https://x.com"
  {
    var twitter := Sites[TwitterIndex];
    assert twitter.triggers[2] == "open x";
    assert Triggers(lower, twitter);
    FirstTriggeredSiteOpens(lower, utterance, TwitterIndex);
  }

  /**
    * A search trigger with nothing left to search for falls through to the
    * site checks, exactly as if no search phrase had been said.
    */
  lemma EmptySearchFallsThrough(lower: string, utterance: string)
    requires SearchQuery(utterance) == []
    ensures forall q :: Resolve(lower, utterance) != Some(WebSearch(q))
    ensures forall i: nat :: Resolve(lower, utterance) == Some(OpenSite(i)) <==> FirstAt(Sites, TriggeredBy(lower), i)
    ensures Resolve(lower, utterance).None? <==> forall i :: 0 <= i < |Sites| ==> !Triggers(lower, Sites[i])
  {
  }

  /** "Google Search" said alone leaves nothing to search for, whatever its case. */
  lemma BareSearchCommandIsEmpty()
    ensures SearchQuery("Google Search") == []
  {
    var s := "Google Search";
    var l := Lower(s[..13]);
    assert l[0] == 'g' && l[7] == 's';
    assert l == "google search";
    assert PhraseAtStart(s, SearchPhrases) == 0;
    assert s[13..] == [];
  }

  /** The search URL keeps the query inside the `q` parameter: it adds no `&`, `#` or space. */
  lemma SearchUrlIsSafe(query: string)
    ensures var url := IntentUrl(WebSearch(query));
      SearchUrlPrefix <= url &&
      forall i :: |SearchUrlPrefix| <= i < |url| ==> url[i] != '&' && url[i] != '#' && url[i] != ' ' && url[i] != '+'
  {
    var url := IntentUrl(WebSearch(query));
    var enc := UriComponent.Encode(query);
    forall i | |SearchUrlPrefix| <= i < |url| ensures url[i] != '&' && url[i] != '#' && url[i] != ' ' && url[i] != '+' {
      assert url[i] == enc[i - |SearchUrlPrefix|];
    }
  }

  // ---------------------------------------------------------------------------
  // The hook's state

  /** The outward calls `processVoiceInput` makes, in order. */
  datatype Effect =
    | OpenUrl(url: string)
      /** `supabase.functions.invoke('chat', { body: { message } })`: the body carries the message only. */
    | InvokeChat(message: string)
    | Speak(text: string, lang: string)
    | Notify(toast: Toast)

  /** How the awaited chat call ended: a reply, or a thrown error with its message. */
  datatype ChatOutcome = Replied(reply: string) | Failed(message: string)

  const SpeechUnavailableToast := Toast("ℹ️ Info", "Text-to-speech not supported in this browser", false)

  function ErrorToast(message: string): (t: Toast)
    ensures t.destructive && t.title == "❌ एरर / Error"
    ensures t.description == (if message == "" then "Failed to process voice input" else message)
  {
    Toast("❌ एरर / Error", if message != "" then message else "Failed to process voice input", true)
  }

  class VoiceAssistantState {
    var messages: seq<Message>
    var isProcessing: bool
    var isListening: bool
    /** Every outward call made so far. */
    var effects: seq<Effect>

    constructor ()
      ensures messages == [] && !isProcessing && !isListening && effects == []
    {
      messages := [];
      isProcessing := false;
      isListening := false;
      effects := [];
    }

    /**
      * `processVoiceInput` up to its `await`. A local intent opens its URL,
      * appends the utterance and the reply, and finishes; anything else
      * appends the utterance, raises `isListening` and calls the chat
      * function with the message alone, leaving the call pending.
      */
    method ProcessVoiceInput(utterance: string) returns (pending: bool)
      modifies this
      ensures var intent := Resolve(Lower(utterance), utterance);
        && (intent.Some? ==>
              && messages == old(messages) + [Message(User, utterance), Message(Assistant, IntentReply(intent.value))]
              && effects == old(effects) + [OpenUrl(IntentUrl(intent.value))]
              && !isProcessing && isListening == old(isListening) && !pending)
        && (intent.None? ==>
              && messages == old(messages) + [Message(User, utterance)]
              && effects == old(effects) + [InvokeChat(utterance)]
              && isProcessing && isListening && pending)
    {
      isProcessing := true;
      var lower := Lower(utterance);
      var intent := Resolve(lower, utterance);
      if intent.Some? {
        AnswerLocally(utterance, intent.value);
        return false;
      }
      messages := messages + [Message(User, utterance)];
      isListening := true;
      effects := effects + [InvokeChat(utterance)];
      pending := true;
    }

    /** A local intent: open its URL, append the utterance and the reply, stop processing. */
    method AnswerLocally(utterance: string, intent: Intent)
      requires intent.OpenSite? ==> intent.index < |Sites|
      modifies this
      ensures messages == old(messages) + [Message(User, utterance), Message(Assistant, IntentReply(intent))]
      ensures effects == old(effects) + [OpenUrl(IntentUrl(intent))]
      ensures !isProcessing && isListening == old(isListening)
    {
      effects := effects + [OpenUrl(IntentUrl(intent))];
      messages := messages + [Message(User, utterance), Message(Assistant, IntentReply(intent))];
      isProcessing := false;
    }

    /**
      * The rest of `processVoiceInput`, once the chat call settles: a reply
      * is appended and spoken (or, without speech synthesis, `isListening`
      * drops and an info toast shows); a failure appends nothing, drops
      * `isListening` and shows the error. `isProcessing` ends false either way.
      */
    method FinishVoiceInput(outcome: ChatOutcome, synthesisAvailable: bool)
      modifies this
      ensures !isProcessing
      ensures outcome.Replied? ==> messages == old(messages) + [Message(Assistant, outcome.reply)]
      ensures outcome.Replied? && synthesisAvailable ==>
        effects == old(effects) + [Speak(outcome.reply, "en-IN")] && isListening == old(isListening)
      ensures outcome.Replied? && !synthesisAvailable ==>
        effects == old(effects) + [Notify(SpeechUnavailableToast)] && !isListening
      ensures outcome.Failed? ==>
        messages == old(messages) && effects == old(effects) + [Notify(ErrorToast(outcome.message))] && !isListening
    {
      match outcome {
        case Failed(message) =>
          effects := effects + [Notify(ErrorToast(message))];
          isListening := false;
        case Replied(reply) =>
          messages := messages + [Message(Assistant, reply)];
          if synthesisAvailable {
            effects := effects + [Speak(reply, "en-IN")];
          } else {
            isListening := false;
            effects := effects + [Notify(SpeechUnavailableToast)];
          }
      }
      isProcessing := false;
    }

    /** The utterance's `onend` and `onerror` handlers. */
    method OnSpeechDone()
      modifies this
      ensures !isListening
      ensures messages == old(messages) && isProcessing == old(isProcessing) && effects == old(effects)
    {
      isListening := false;
    }
  }
}
