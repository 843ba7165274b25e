# Jarvis voice assistant: a Dafny model of its core

Jarvis is a browser voice assistant with a React front end and two
Supabase edge functions. This project models the parts that decide
something, with proofs:

- **Conversation store** (`useConversationHistory`). This is a list of conversations, the id of the current one, and the storage record every change is written to. Its operations are:
  - create, which puts the new conversation in front;
  - replace-messages, which applies the "New Chat" title rule and re-sorts by recency;
  - delete, which moves the current pointer if needed;
  - switch and get-current;
  - the load on mount.
- **Saved-app registry** (`useSavedApps`). Append, delete and update write the whole list through to storage. The name lookup tries three tiers and ignores case.
- **"Manage Applications" dialog** (`AddAppModal`). It covers the blank-field check, the URL pattern, the comma-separated alias parser, clearing the form, and deletion.
- **Utterance dispatcher** (`useVoiceAssistant.processVoiceInput`):
  - the ordered trigger chain: a Google search, then eleven sites;
  - extraction of the search query;
  - the message-append discipline;
  - the `isProcessing`/`isListening` flags across the chat call and the speech callbacks.
- **`chat` edge function**:
  - builds the provider's `contents` list;
  - buffers the provider's stream by newline;
  - re-frames each extracted text as a server-sent event (section 9.2 of the WHATWG HTML Living Standard), then one `[DONE]` event;
  - returns error responses.
- **Translation lookup** (`LanguageContext`). It covers the six tables, the current-language → English → key fallback, the initial language, and persisting the language setting.
- **Text submit gate** (`TextInput`). It covers the submit handler and the condition that disables the button.
- **`text-to-speech` edge function**. It covers the request defaults, the text and API-key checks, the voice table with its Aria fallback, and the error responses.

Components whose fields the source updates in place are classes with `modifies` clauses: the conversation store, the registry, the dialog, the text box, the language provider and the voice assistant. The pure parts are functions and lemmas: the title rule, the sort, the lookups, the URL pattern, the alias parser, the trigger chain, the translation fallback and the TTS handler. The chat function's loops are methods, and their invariants are proved against specification functions.

Several JavaScript built-ins are written out, each in its own module:

- `trim`, `toLowerCase`, `includes`, `split` and `String(n)` (`JsString`);
- `find`, `findIndex`, `filter` and `flatMap` (`Lists`);
- `JSON.stringify` of a string, with a decoder (`JsonString`);
- `encodeURIComponent` (`UriComponent`).

Storage is a value `Stored<T> = Missing | Malformed | Saved(T)`. Clock readings, the network, the environment and the speech engine are parameters. Outward calls are recorded as effects.

## Model

| member | source | states |
|---|---|---|
| ConversationHistory.ConversationId | src/hooks/useConversationHistory.ts:48 | a new id is `conv_` followed by the clock reading |
| ConversationHistory.ConversationIdInjective | src/hooks/useConversationHistory.ts:48 | two creations get the same id only at the same clock reading (ids are not checked for uniqueness otherwise) |
| ConversationHistory.Abbreviate | src/hooks/useConversationHistory.ts:69 | at most 53 characters; content of at most 50 characters is kept whole; longer content keeps its first 50 characters followed by `...` |
| ConversationHistory.DeriveTitle | src/hooks/useConversationHistory.ts:65-71 | a title other than "New Chat" is never changed, and no title changes without a user message; "New Chat" with a user message becomes the abbreviated first user message |
| ConversationHistory.DerivedTitleShape | src/hooks/useConversationHistory.ts:66-70 | a rewritten title is at most 53 characters long and comes from the first user message |
| ConversationHistory.Touch | src/hooks/useConversationHistory.ts:73-78 | the conversation keeps its id and creation time and gets exactly the new messages, the clock reading and the derived title |
| ConversationHistory.ApplyMessages | src/hooks/useConversationHistory.ts:62-81 | same length and same ids in order; entries with the id are touched, all others are unchanged |
| ConversationHistory.InsertPermutes | src/hooks/useConversationHistory.ts:84 | one insertion step of the sort adds exactly the inserted conversation (as a multiset) |
| ConversationHistory.InsertKeepsOrder | src/hooks/useConversationHistory.ts:84 | inserting into a list sorted by recency leaves it sorted |
| ConversationHistory.InsertIsStable | src/hooks/useConversationHistory.ts:84 | the inserted conversation goes before every conversation with the same timestamp, the others keeping their order |
| ConversationHistory.SortByRecency | src/hooks/useConversationHistory.ts:84 | the result is ordered by `updatedAt` descending, is a permutation of the input, and keeps equal timestamps in input order (stable) |
| ConversationHistory.UpdatedConversationFirst | src/hooks/useConversationHistory.ts:61-85 | updated at a clock later than every other conversation, the updated conversation comes first after the sort |
| ConversationHistory.RemoveIdSpec | src/hooks/useConversationHistory.ts:95 | deleting keeps exactly the entries with another id, distributes over concatenation (keeps order), is a no-op for an unknown id and is idempotent |
| ConversationHistory.RemoveId | src/hooks/useConversationHistory.ts:95 | the result holds exactly the entries of the list whose id differs from the deleted one |
| ConversationHistory.RemoveIdKeepsOrder | src/hooks/useConversationHistory.ts:95-101 | deleting from a recency-sorted list leaves it sorted, so the new current entry is the most recent of the rest |
| ConversationHistory.FindById | src/hooks/useConversationHistory.ts:90 | none exactly when there is no current id or no entry has it; otherwise the first entry with that id |
| ConversationHistory.Restore | src/hooks/useConversationHistory.ts:23-36 | the stored list when it parses, otherwise empty |
| ConversationHistory.ConversationStore.constructor | src/hooks/useConversationHistory.ts:19-37 | mounting loads the stored list and makes its first entry current, or none |
| ConversationHistory.ConversationStore.Save | src/hooks/useConversationHistory.ts:40-43 | storage and the in-memory list both become the new list; the current id is untouched |
| ConversationHistory.ConversationStore.CreateNewConversation | src/hooks/useConversationHistory.ts:46-58 | returns `conv_<clock>`, puts an empty "New Chat" conversation with the two timestamps in front of the unchanged list, saves, and makes it current |
| ConversationHistory.ConversationStore.UpdateConversationMessages | src/hooks/useConversationHistory.ts:61-86 | the list becomes the sorted, touched list (sorted, a permutation of the touched list), is saved, and the current id is untouched |
| ConversationHistory.ConversationStore.GetCurrentConversation | src/hooks/useConversationHistory.ts:89-91 | a result is in the list and has the current id; there is none exactly when there is no current id or no entry has it |
| ConversationHistory.ConversationStore.DeleteConversation | src/hooks/useConversationHistory.ts:94-106 | entries with the id are removed and saved; if the id was current, the new first entry (or none) becomes current, otherwise the current id is unchanged |
| ConversationHistory.ConversationStore.SwitchConversation | src/hooks/useConversationHistory.ts:109-111 | sets the current id without an existence check; the list and storage are unchanged |
| SavedApps.AppId | src/hooks/useSavedApps.ts:34 | a new app id is `app_` followed by the clock reading |
| SavedApps.Overlay | src/hooks/useSavedApps.ts:48 | for each of the five fields (id, name, url, aliases, creation time) a value present in the patch replaces the app's and an absent one keeps it; an empty patch changes nothing |
| SavedApps.PatchApps | src/hooks/useSavedApps.ts:48 | same length; apps with the id get the overlay and all others are unchanged |
| SavedApps.PatchUnknownId | src/hooks/useSavedApps.ts:47-49 | an update under an unknown id changes nothing |
| SavedApps.RemoveAppSpec | src/hooks/useSavedApps.ts:43-45 | deleting keeps exactly the apps with another id, in order; an unknown id is a no-op; deleting twice equals deleting once |
| SavedApps.RemoveApp | src/hooks/useSavedApps.ts:44 | the result holds exactly the apps of the list whose id differs from the deleted one |
| SavedApps.FirstMatch | src/hooks/useSavedApps.ts:55-72 | one tier's `find`: none exactly when no app matches, otherwise the first matching app in list order |
| SavedApps.FindAppByName | src/hooks/useSavedApps.ts:51-75 | with the lowered, trimmed query: the first exact-name match if any, else the first exact-alias match, else the first substring match either way; none exactly when no tier matches; a result is in the list |
| SavedApps.NormalizeQuery | src/hooks/useSavedApps.ts:52 | the normalised query has no whitespace at either end and is no longer than the name |
| SavedApps.EarlierTierWins | src/hooks/useSavedApps.ts:55-72 | an exact-name match wins over a partial match that sits earlier in the list |
| SavedApps.BlankQueryFindsFirst | src/hooks/useSavedApps.ts:51-72 | a blank or whitespace query returns the first app of a non-empty list (apps with non-empty names and aliases) |
| SavedApps.SavedAppRegistry.constructor | src/hooks/useSavedApps.ts:14-25 | mounting loads the stored list; absent or unparseable data leaves it empty |
| SavedApps.SavedAppRegistry.SaveToStorage | src/hooks/useSavedApps.ts:27-30 | storage and the in-memory list both become the new list |
| SavedApps.SavedAppRegistry.AddApp | src/hooks/useSavedApps.ts:32-41 | exactly one app is appended, with the given fields, aliases defaulting to empty, and id and creation time from the clock; the rest are unchanged; saved |
| SavedApps.SavedAppRegistry.DeleteApp | src/hooks/useSavedApps.ts:43-45 | the list becomes the filtered list and is saved |
| SavedApps.SavedAppRegistry.UpdateApp | src/hooks/useSavedApps.ts:47-49 | the list becomes the patched list and is saved |
| SavedApps.SavedAppRegistry.Lookup | src/hooks/useSavedApps.ts:51-75 | the lookup over the current list; a result is one of its apps |
| AddAppModal.LetterRun | src/components/AddAppModal.tsx:34 | the length of the leading run of ASCII letters |
| AddAppModal.IsAcceptedUrl | src/components/AddAppModal.tsx:34-35 | true exactly when the string starts, ignoring case, with `http://`, `https://`, `tel:`, `mailto:`, `wa.me` or letters followed by `://` |
| AddAppModal.PlaceholderUrlsAccepted | src/components/AddAppModal.tsx:94 | the dialog's own example URLs are accepted |
| AddAppModal.UpperCaseUrlAccepted | src/components/AddAppModal.tsx:34 | the pattern ignores case |
| AddAppModal.SchemeUrlAccepted | src/components/AddAppModal.tsx:34 | any letters-only scheme with `://` is accepted |
| AddAppModal.NoSchemeRejected | src/components/AddAppModal.tsx:34-35 | without a fixed prefix and without letters followed by `://`, a string is rejected |
| AddAppModal.BareHostRejected | src/components/AddAppModal.tsx:34-35 | "youtube.com" is rejected |
| AddAppModal.EmptySchemeRejected | src/components/AddAppModal.tsx:34-35 | "://host" is rejected: the scheme needs a letter |
| AddAppModal.KeepTrimmed | src/components/AddAppModal.tsx:46-47 | trimming and dropping blank pieces never lengthens the list |
| AddAppModal.ParsedAliasesComeFromPieces | src/components/AddAppModal.tsx:44-47 | every parsed alias is a non-empty, trimmed comma-separated piece of the field |
| AddAppModal.PiecesBecomeAliases | src/components/AddAppModal.tsx:44-47 | every non-blank piece, trimmed, is among the parsed aliases |
| AddAppModal.ParseAliasesClean | src/components/AddAppModal.tsx:44-47 | every parsed alias is non-empty, trimmed and free of commas |
| AddAppModal.ParseAliases | src/components/AddAppModal.tsx:44-47 | at most one alias per comma-separated piece (ParsedAliasesComeFromPieces, PiecesBecomeAliases and ParseAliasesClean say which) |
| AddAppModal.KeepTrimmedAppend | src/components/AddAppModal.tsx:46-47 | trimming and dropping distribute over concatenation, so input order is kept |
| AddAppModal.ParseLeadingSpace | src/components/AddAppModal.tsx:44-47 | a space in front of the field changes no alias |
| AddAppModal.ParseSingle | src/components/AddAppModal.tsx:44-47 | a single clean alias parses to itself |
| AddAppModal.ParseShownAliases | src/components/AddAppModal.tsx:44-47 | an alias list as the dialog shows it (`join(', ')`, line 135), typed back in, parses to the same list |
| AddAppModal.Validate | src/components/AddAppModal.tsx:23-49 | accepted exactly when both trimmed fields are non-blank and the trimmed URL matches the pattern; a blank field gives the missing-fields toast, a bad URL the invalid-URL toast; an accepted submission carries the trimmed name and URL and clean parsed aliases |
| AddAppModal.AddAppForm.constructor | src/components/AddAppModal.tsx:17-20 | the three fields start empty |
| AddAppModal.AddAppForm.Edit | src/components/AddAppModal.tsx:17-19 | the fields take the typed values |
| AddAppModal.AddAppForm.HandleAdd | src/components/AddAppModal.tsx:23-59 | a refused submission returns its toast and changes neither the fields nor the saved apps; an accepted one appends exactly one app with the validated values, saves, clears the three fields and confirms with the untrimmed name |
| AddAppModal.AddAppForm.Save | src/components/AddAppModal.tsx:49-58 | appends the app, saves, clears the fields, returns the confirmation toast |
| AddAppModal.AddAppForm.HandleDelete | src/components/AddAppModal.tsx:61-67 | the saved apps lose exactly the apps with that id; the toast names the app |
| AddAppModal.AddedAppIsFound | src/components/AddAppModal.tsx:49 | an app added under a typed name is found again by that name |
| VoiceAssistant.PhraseAtStart | src/hooks/useVoiceAssistant.ts:26 | the first alternative of the pattern that matches at the start, ignoring case |
| VoiceAssistant.RemovePhrases | src/hooks/useVoiceAssistant.ts:26 | the global, case-insensitive replace never lengthens the text |
| VoiceAssistant.RemoveAbsentPhrases | src/hooks/useVoiceAssistant.ts:26 | text without any trigger phrase is left as it is |
| VoiceAssistant.Resolve | src/hooks/useVoiceAssistant.ts:21-168 | a search fires when a search phrase is present and the query is non-empty; otherwise the first site, in source order, with a trigger phrase; none exactly when nothing matches |
| VoiceAssistant.SearchQuery | src/hooks/useVoiceAssistant.ts:26 | the query has no whitespace at either end and is no longer than the utterance |
| VoiceAssistant.IntentUrl | src/hooks/useVoiceAssistant.ts:28-168 | a search opens the Google search prefix followed by at least as many characters as the query has (SearchUrlIsSafe: none of them `&`, `#`, space or `+`); a site opens its own URL |
| VoiceAssistant.IntentReply | src/hooks/useVoiceAssistant.ts:28-168 | a search's reply is the fixed Hindi text followed by exactly the query; a site has its own reply |
| VoiceAssistant.EarlierSiteWins | src/hooks/useVoiceAssistant.ts:38-168 | a later site is never opened when an earlier one is also triggered |
| VoiceAssistant.FirstTriggeredSiteOpens | src/hooks/useVoiceAssistant.ts:38-168 | the first triggered site is the one opened |
| VoiceAssistant.EmailOpensGmail | src/hooks/useVoiceAssistant.ts:110-120 | "email" anywhere opens `https://mail.google.com` unless an earlier check matched |
| VoiceAssistant.OpenXOpensTwitter | src/hooks/useVoiceAssistant.ts:134-144 | "open x" anywhere opens `https://x.com` unless an earlier check matched |
| VoiceAssistant.EmptySearchFallsThrough | src/hooks/useVoiceAssistant.ts:24-36 | with an empty query no search is opened, even when a search phrase was said: the result is the first triggered site, and none exactly when no site triggers |
| VoiceAssistant.BareSearchCommandIsEmpty | src/hooks/useVoiceAssistant.ts:26-27 | "Google Search" alone leaves an empty query |
| VoiceAssistant.SearchUrlIsSafe | src/hooks/useVoiceAssistant.ts:28 | the search URL starts with the Google prefix and the encoded query adds no `&`, `#`, space or `+` |
| VoiceAssistant.ErrorToast | src/hooks/useVoiceAssistant.ts:221-226 | destructive, with the error title and the message, or the default text when the message is empty |
| VoiceAssistant.VoiceAssistantState.constructor | src/hooks/useVoiceAssistant.ts:11-13 | no messages, and both flags false |
| VoiceAssistant.VoiceAssistantState.ProcessVoiceInput | src/hooks/useVoiceAssistant.ts:16-182 | a local intent opens exactly one URL, appends exactly [utterance, reply], makes no chat call and clears `isProcessing`; otherwise it appends the utterance, raises `isListening` and calls the chat function with the message alone |
| VoiceAssistant.VoiceAssistantState.FinishVoiceInput | src/hooks/useVoiceAssistant.ts:182-230 | `isProcessing` ends false; a reply is appended and spoken in en-IN, or, without synthesis, `isListening` drops and an info toast shows; a failure appends nothing, shows the error and drops `isListening` |
| VoiceAssistant.VoiceAssistantState.OnSpeechDone | src/hooks/useVoiceAssistant.ts:198-205 | `isListening` drops and nothing else changes |
| ChatFunction.ProviderRole | supabase/functions/chat/index.ts:24 | "model" exactly for "assistant", otherwise "user" |
| ChatFunction.TextFrame | supabase/functions/chat/index.ts:101 | a frame starts with `data: ` and ends with a blank line |
| ChatFunction.BuildContents | supabase/functions/chat/index.ts:19-33 | one entry per history message, with its text and mapped role, then the current message as a user entry |
| ChatFunction.TextFrameIsOneEvent | supabase/functions/chat/index.ts:101 | a text frame is `data: ` plus a payload without line breaks plus a blank line, and is never the `[DONE]` frame |
| ChatFunction.LineFramesAreTextFrames | supabase/functions/chat/index.ts:93-106 | every frame produced for lines is a text frame, so none is `[DONE]` |
| ChatFunction.BlankLinesAreSkipped | supabase/functions/chat/index.ts:94 | an extra newline between events changes no frame |
| ChatFunction.ChunkStep | supabase/functions/chat/index.ts:87-91 | appending a chunk re-splits only the buffered tail |
| ChatFunction.LineFrame | supabase/functions/chat/index.ts:94-105 | at most one frame; a frame exactly when the line is not blank and its extracted text is present and non-empty, and then it is that text's frame (the same rule frames the final buffer, lines 110-120) |
| ChatFunction.FrameLines | supabase/functions/chat/index.ts:93-106 | the frames of the lines, in order |
| ChatFunction.ReadStep | supabase/functions/chat/index.ts:83-91 | one read adds the new chunk's complete lines to the framed ones, and its tail becomes the buffer |
| ChatFunction.ReadChunks | supabase/functions/chat/index.ts:80-107 | afterwards the buffer is the text after the last newline (no newline in it), and exactly the completed lines have been framed: no data lost or duplicated |
| ChatFunction.LastLine | supabase/functions/chat/index.ts:110-121 | framing the complete lines and then the buffer frames every line of the text |
| ChatFunction.StreamFrames | supabase/functions/chat/index.ts:70-128 | the frames depend only on the concatenated input, not on its chunking: the frames of all its lines, then `[DONE]`; if a read fails, the stream errors after the completed lines' frames |
| ChatFunction.DoneSentOnceLast | supabase/functions/chat/index.ts:123-124 | on normal completion `[DONE]` is sent once, as the last frame |
| ChatFunction.HandleChat | supabase/functions/chat/index.ts:8-147 | preflight gets only CORS headers; a missing key or a failed or non-OK upstream call gives a status-500 JSON error and no stream; otherwise history+1 contents, entry i carrying history entry i's text with `assistant` mapped to `model` and every other role to `user`, ending with the user message, and the event stream |
| LanguageContext.EnglishFallback | src/contexts/LanguageContext.tsx:12-75 | every English string is non-empty and differs from its key |
| LanguageContext.HindiFallback | src/contexts/LanguageContext.tsx:76-139 | every Hindi string is non-empty and differs from its key, and English has every Hindi key |
| LanguageContext.SpanishFallback | src/contexts/LanguageContext.tsx:140-153 | the same for the Spanish table |
| LanguageContext.FrenchFallback | src/contexts/LanguageContext.tsx:154-167 | the same for the French table |
| LanguageContext.GermanFallback | src/contexts/LanguageContext.tsx:168-181 | the same for the German table |
| LanguageContext.ChineseFallback | src/contexts/LanguageContext.tsx:182-195 | the same for the Chinese table |
| LanguageContext.HindiKeysInEnglish | src/contexts/LanguageContext.tsx:12-139 | every Hindi key is an English key |
| LanguageContext.TableOf | src/contexts/LanguageContext.tsx:11-196 | every language's table has non-empty strings that differ from their keys, and only keys English has |
| LanguageContext.TranslateCurrent | src/contexts/LanguageContext.tsx:215 | the current language's string wins when present |
| LanguageContext.TranslateEnglishFallback | src/contexts/LanguageContext.tsx:215 | a string missing in the current language falls back to English |
| LanguageContext.ResolveFacts | src/contexts/LanguageContext.tsx:215 | over tables with non-empty strings, the fallback is non-empty for a non-empty key, and is the key exactly when English lacks it |
| LanguageContext.Translate | src/contexts/LanguageContext.tsx:214-216 | a non-empty key never translates to the empty string, in any language |
| LanguageContext.TranslateIsKeyIff | src/contexts/LanguageContext.tsx:11-216 | `t(key)` is the key itself exactly when English has no entry for it |
| LanguageContext.InitialLanguage | src/contexts/LanguageContext.tsx:201-204 | the stored code when present and non-empty, otherwise "hi" |
| LanguageContext.LanguageProvider.constructor | src/contexts/LanguageContext.tsx:201-208 | the initial language, which the effect then stores |
| LanguageContext.LanguageProvider.SetLanguage | src/contexts/LanguageContext.tsx:206-212 | the language and its stored entry both become the new code, which a reload restores |
| LanguageContext.LanguageProvider.T | src/contexts/LanguageContext.tsx:214-216 | a result exactly when the current code is one of the six; it is the fallback lookup, non-empty for a non-empty key |
| TextInput.DisabledExactlyWhenGated | src/components/TextInput.tsx:16-33 | the button is disabled exactly when the handler would refuse |
| TextInput.TextInputBox.constructor | src/components/TextInput.tsx:12 | the field starts empty |
| TextInput.TextInputBox.Edit | src/components/TextInput.tsx:26 | the field takes the typed value |
| TextInput.TextInputBox.HandleSubmit | src/components/TextInput.tsx:14-20 | submits exactly when the trimmed text is non-empty and nothing is processing; the value is the trimmed text (non-empty, trimmed) and the field is cleared; when gated nothing is sent and the text is unchanged |
| TextToSpeech.Lookup | supabase/functions/text-to-speech/index.ts:27-35 | none exactly when no entry has the name, otherwise an entry's value |
| TextToSpeech.VoiceIdAsWritten | supabase/functions/text-to-speech/index.ts:35 | a table name gets its ID; a name that is neither in the table nor inherited gets Aria's |
| TextToSpeech.InheritedNameEscapesTable | supabase/functions/text-to-speech/index.ts:35 | "constructor" puts the text of a function, which is no table ID, into the URL |
| TextToSpeech.VoiceId | supabase/functions/text-to-speech/index.ts:27-35 | the result is always one of the five table IDs: the name's own for a table name, otherwise Aria's |
| TextToSpeech.NamedVoices | supabase/functions/text-to-speech/index.ts:27-33 | each of the five names maps to its fixed ID |
| TextToSpeech.VoiceAt | supabase/functions/text-to-speech/index.ts:27-33 | each table entry is the one its own name finds |
| TextToSpeech.LookupFirst | supabase/functions/text-to-speech/index.ts:35 | an entry whose name no earlier entry has is the value the lookup finds |
| TextToSpeech.NamesAreCaseSensitive | supabase/functions/text-to-speech/index.ts:35 | "aria" is not a table name and gets Aria's ID |
| TextToSpeech.VoiceIdAgreesOffPrototype | supabase/functions/text-to-speech/index.ts:35 | apart from inherited names, the corrected lookup is the written one |
| TextToSpeech.HandleTts | supabase/functions/text-to-speech/index.ts:8-76 | missing or empty text is an error before the key check and before any upstream call; a missing key is an error with no upstream call; a body with non-empty text and a non-empty key is always sent upstream, and gets the provider's audio back when the call succeeds; a request sent upstream has the text and the voice ID the written lookup gives, which is a table ID whenever the voice is not an inherited member's name; upstream failures give status-500 errors; audio only after a request |
| TextToSpeech.Respond | supabase/functions/text-to-speech/index.ts:54-76 | once the call is made it is recorded as sent; a failed fetch gives its message and a non-OK status `TTS API error: <status>`, both with status 500; a success returns the audio content |
| TextToSpeech.SentVoiceId | supabase/functions/text-to-speech/index.ts:35 | the ID put into the URL is the written lookup's, and for a name off the prototype it is the table ID the corrected lookup gives |
| TextToSpeech.ConstructorVoiceLeavesTable | supabase/functions/text-to-speech/index.ts:35-37 | a request with voice "constructor" is sent upstream with the text of a function as its voice ID, which is no table ID |
| TextToSpeech.OmittedVoiceIsAria | supabase/functions/text-to-speech/index.ts:14 | a request without a voice is spoken with Aria's ID |
| JsString.Trim | src/components/TextInput.tsx:16 | the result is a slice of the input with only whitespace before and after it, neither starts nor ends with whitespace, and is empty exactly for an all-whitespace string |
| JsString.TrimIdempotent | src/components/TextInput.tsx:17 | trimming twice is trimming once |
| JsString.TrimLowerCommute | src/hooks/useSavedApps.ts:52 | lowering then trimming equals trimming then lowering |
| JsString.Split | supabase/functions/chat/index.ts:88 | `split` on one character always gives at least one piece |
| JsString.SplitPiecesFree | supabase/functions/chat/index.ts:88 | no piece contains the separator |
| JsString.JoinSplit | supabase/functions/chat/index.ts:88-91 | joining the pieces gives the string back |
| JsString.SplitAppend | supabase/functions/chat/index.ts:87-91 | extending the string re-splits only its last piece |
| JsString.DecimalRoundTrip | supabase/functions/text-to-speech/index.ts:57 | the decimal rendering of a status denotes that status |
| JsonString.UnescapeEscapeBody | supabase/functions/chat/index.ts:101 | decoding the escaped text gives it back exactly |
| JsonString.Quote | supabase/functions/chat/index.ts:101 | `JSON.stringify` of a string: the escaped text between two double quotes (UnescapeEscapeBody: the escaping decodes back to the text) |
| JsonString.EscapeBodyHasNoControl | supabase/functions/chat/index.ts:101 | the escaped text holds no control character, so no line break |
| UriComponent.Encode | src/hooks/useVoiceAssistant.ts:28 | `encodeURIComponent`: the encoding holds only unreserved characters and `%`, and is no shorter than its input |
| UriComponent.EncodeUnreserved | src/hooks/useVoiceAssistant.ts:28 | a string of unreserved characters is its own encoding |
| UriComponent.EncodeAppend | src/hooks/useVoiceAssistant.ts:28 | the encoding distributes over concatenation |
| Lists.FlatMapAppend | supabase/functions/chat/index.ts:101 | `flatMap` distributes over concatenation |
| Lists.FilterMembers | src/hooks/useSavedApps.ts:44 | `filter` keeps exactly the elements that satisfy the predicate |
| Lists.FilterAppend | src/hooks/useSavedApps.ts:44 | `filter` distributes over concatenation, so it keeps relative order |
| Lists.FilterIdempotent | src/hooks/useSavedApps.ts:44 | filtering twice is filtering once |
| Lists.FindFirstAt | src/hooks/useConversationHistory.ts:90 | `find` returns the element at the first index that satisfies the predicate |

## Left out

- Network, storage and environment access (`fetch`, `supabase.functions.invoke`, `localStorage`, `Deno.env.get`, `window.open`) are parameters or recorded effects. The JSON codec of storage is assumed lossless, so a stored value is `Missing`, `Malformed` or `Saved(list)`.
- A stored `JSON.parse` result that is not an array is not modelled. The model treats anything that parses as the list it should be.
- Clock readings are method arguments, one per `Date.now()` call.
- Speech synthesis is reduced to its flag effects and a recorded `Speak` effect. Rate and pitch are floats and are not modelled.
- `toLowerCase` is ASCII lowering, and strings are sequences of code points. UTF-16 surrogate pairs and Unicode case mapping are not modelled.
- `TextDecoder`/`TextEncoder` are left out: chunks arrive already decoded.
- The provider's stream format is a parameter. `extract` stands for `JSON.parse` followed by the optional-chain text lookup, with `None` for a parse failure or a missing text.
- CORS header values, response content types and the provider request's fixed fields (model name, system instruction, generation settings) are not modelled.
- The base64 conversion of the TTS audio is left out; the audio arrives as its base64 text.
- The TTS upstream error body is read and logged only, so it is left out.
- TextToSpeech.HandleTts: a non-string `text` or `voice` in the request body is not modelled; both are strings or absent.
- The client expects `{ reply }` from the chat function, which answers with an event stream. The model keeps both sides as written and does not connect them; the reply is an input of `FinishVoiceInput`.
- A reader error is modelled only after all the given chunks (`readFails`), not between two chunks.
- `processVoiceInput` is split at its one `await` into `ProcessVoiceInput` and `FinishVoiceInput`. Interleaving two utterances is not modelled.
- ConversationHistory.SortByRecency: the library sort is modelled as a stable insertion sort. Its comparator `b.updatedAt - a.updatedAt` is read as a comparison of integers.
- ConversationHistory.UpdatedConversationFirst: requires a clock strictly later than every other conversation's `updatedAt`. With equal timestamps the stable sort keeps the old order, so a merely non-decreasing clock does not put the updated conversation first.
- SavedApps.BlankQueryFindsFirst: requires every app to have a non-empty name and non-empty aliases, as the dialog guarantees. An app with an empty name or alias would match the blank query in an earlier tier.
- VoiceAssistant.OpenXOpensTwitter: "open x" is a plain substring test, so "open xbox" also opens Twitter/X. This is modelled as written, not corrected.
- LanguageContext.LanguageProvider.T: translation keys and language codes that name `Object.prototype` members are not modelled. An unknown code gives no result, which stands for the `TypeError` the lookup would throw.
- `useLanguage` throwing outside a provider is rendering plumbing and is left out.
- ConversationHistory.ConversationStore.Save: a `localStorage.setItem` that throws (quota exceeded, storage disabled) would leave the in-memory list unchanged; in the model the write always succeeds.
- SavedApps.SavedAppRegistry.SaveToStorage: a `localStorage.setItem` that throws would leave the in-memory list unchanged; in the model the write always succeeds.

## Findings

| source | as written | input that shows it | evidently intended | confidence | as-written member | corrected member |
|---|---|---|---|---|---|---|
| supabase/functions/text-to-speech/index.ts:35 | `voiceIds[voice] \|\| voiceIds["Aria"]` also reads properties an object literal inherits | voice "constructor" | any name outside the five falls back to Aria's ID | not executed | TextToSpeech.InheritedNameEscapesTable | TextToSpeech.VoiceId |
