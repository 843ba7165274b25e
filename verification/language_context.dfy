/**
  * The translation context (src/contexts/LanguageContext.tsx): six key
  * tables, the `t` lookup that falls back from the current language to
  * English and then to the key itself, and the provider that starts from
  * the stored language and writes every change back.
  */
module LanguageContext {
  import opened Wrappers

  // ---------------------------------------------------------------------------
  // The tables (lines 11-196). The English and Hindi tables are written
  // section by section, as the source's comments divide them; a table is
  // the union of its sections.

  /** The `Language` type: the six languages that have a table. */
  datatype Language = En | Hi | Es | Fr | De | Zh

  /** A code read as a `Language`, if it is one of the six. */
  function LanguageOf(code: string): Option<Language> {
    if code == "en" then Some(En)
    else if code == "hi" then Some(Hi)
    else if code == "es" then Some(Es)
    else if code == "fr" then Some(Fr)
    else if code == "de" then Some(De)
    else if code == "zh" then Some(Zh)
    else None
  }

  predicate IsLanguage(code: string) {
    LanguageOf(code).Some?
  }

  /** Navigation (lines 14-17). */
  const EnNavigation: map<string, string> := map[
    "nav.newChat" := "New Chat",
    "nav.settings" := "Settings",
    "nav.login" := "Login",
    "nav.logout" := "Logout"
  ]

  /** Voice interface (lines 20-23). */
  const EnVoice: map<string, string> := map[
    "voice.tapToSpeak" := "TAP TO SPEAK",
    "voice.tapToStop" := "TAP TO STOP",
    "voice.processing" := "PROCESSING...",
    "voice.jarvisReady" := "Jarvis Ready"
  ]

  /** Settings (lines 26-50). */
  const EnSettings: map<string, string> := map[
    "settings.title" := "Settings",
    "settings.subtitle" := "Manage your preferences",
    "settings.account" := "Account",
    "settings.email" := "Email",
    "settings.status" := "Status",
    "settings.loggedIn" := "Logged In",
    "settings.appearance" := "Appearance",
    "settings.darkMode" := "Dark Mode",
    "settings.language" := "Language",
    "settings.selectLanguage" := "Select your preferred language",
    "settings.features" := "Features",
    "settings.voiceAssistant" := "Voice Assistant",
    "settings.voiceDesc" := "Give voice commands",
    "settings.news" := "News",
    "settings.newsDesc" := "Real-time news (2025)",
    "settings.search" := "Google Search",
    "settings.searchDesc" := "Real-time internet search",
    "settings.voice" := "Voice Settings",
    "settings.voiceModel" := "Voice Model",
    "settings.selectVoice" := "Select voice for responses",
    "settings.about" := "About AI",
    "settings.version" := "Version",
    "settings.data" := "Data",
    "settings.liveData" := "2025 Live Data",
    "settings.capabilities" := "Capabilities"
  ]

  /** Auth (lines 53-60). */
  const EnAuth: map<string, string> := map[
    "auth.login" := "Login",
    "auth.signup" := "Sign Up",
    "auth.email" := "Email",
    "auth.password" := "Password",
    "auth.signInWithEmail" := "Sign in with Email",
    "auth.signUpWithEmail" := "Sign up with Email",
    "auth.noAccount" := "Don't have an account?",
    "auth.haveAccount" := "Already have an account?"
  ]

  /** Apps (lines 63-69). */
  const EnApps: map<string, string> := map[
    "apps.title" := "Saved Apps",
    "apps.add" := "Add New App",
    "apps.name" := "App Name",
    "apps.displayName" := "Display Name",
    "apps.url" := "URL/Phone/WhatsApp",
    "apps.save" := "Save App",
    "apps.cancel" := "Cancel"
  ]

  /** Common (lines 72-74). */
  const EnCommon: map<string, string> := map[
    "common.loading" := "Loading...",
    "common.error" := "Error",
    "common.success" := "Success"
  ]

  /** The `en` table. */
  const EnTable: map<string, string> :=
    EnNavigation + EnVoice + EnSettings + EnAuth + EnApps + EnCommon

  /** Navigation (lines 78-81). */
  const HiNavigation: map<string, string> := map[
    "nav.newChat" := "नई चैट",
    "nav.settings" := "सेटिंग्स",
    "nav.login" := "लॉगिन",
    "nav.logout" := "लॉगआउट"
  ]

  /** Voice interface (lines 84-87). */
  const HiVoice: map<string, string> := map[
    "voice.tapToSpeak" := "बोलने के लिए टैप करें",
    "voice.tapToStop" := "रोकने के लिए टैप करें",
    "voice.processing" := "प्रोसेसिंग...",
    "voice.jarvisReady" := "जार्विस तैयार"
  ]

  /** Settings (lines 90-114). */
  const HiSettings: map<string, string> := map[
    "settings.title" := "सेटिंग्स",
    "settings.subtitle" := "अपनी प्राथमिकताएं प्रबंधित करें",
    "settings.account" := "अकाउंट",
    "settings.email" := "ईमेल",
    "settings.status" := "स्थिति",
    "settings.loggedIn" := "लॉगिन",
    "settings.appearance" := "दिखावट",
    "settings.darkMode" := "डार्क मोड",
    "settings.language" := "भाषा",
    "settings.selectLanguage" := "अपनी पसंदीदा भाषा चुनें",
    "settings.features" := "फीचर्स",
    "settings.voiceAssistant" := "वॉइस असिस्टेंट",
    "settings.voiceDesc" := "आवाज से कमांड दें",
    "settings.news" := "समाचार",
    "settings.newsDesc" := "रियल-टाइम न्यूज़ (2025)",
    "settings.search" := "गूगल सर्च",
    "settings.searchDesc" := "रियल-टाइम इंटरनेट सर्च",
    "settings.voice" := "वॉइस सेटिंग्स",
    "settings.voiceModel" := "वॉइस मॉडल",
    "settings.selectVoice" := "जवाब के लिए आवाज चुनें",
    "settings.about" := "एआई के बारे में",
    "settings.version" := "संस्करण",
    "settings.data" := "डेटा",
    "settings.liveData" := "2025 का लाइव डेटा",
    "settings.capabilities" := "क्षमताएं"
  ]

  /** Auth (lines 117-124). */
  const HiAuth: map<string, string> := map[
    "auth.login" := "लॉगिन",
    "auth.signup" := "साइन अप",
    "auth.email" := "ईमेल",
    "auth.password" := "पासवर्ड",
    "auth.signInWithEmail" := "ईमेल से साइन इन करें",
    "auth.signUpWithEmail" := "ईमेल से साइन अप करें",
    "auth.noAccount" := "अकाउंट नहीं है?",
    "auth.haveAccount" := "पहले से अकाउंट है?"
  ]

  /** Apps (lines 127-133). */
  const HiApps: map<string, string> := map[
    "apps.title" := "सेव किए गए ऐप्स",
    "apps.add" := "नया ऐप जोड़ें",
    "apps.name" := "ऐप का नाम",
    "apps.displayName" := "डिस्प्ले नाम",
    "apps.url" := "URL/फोन/व्हाट्सएप",
    "apps.save" := "ऐप सेव करें",
    "apps.cancel" := "रद्द करें"
  ]

  /** Common (lines 136-138). */
  const HiCommon: map<string, string> := map[
    "common.loading" := "लोड हो रहा है...",
    "common.error" := "एरर",
    "common.success" := "सफल"
  ]

  /** The `hi` table. */
  const HiTable: map<string, string> :=
    HiNavigation + HiVoice + HiSettings + HiAuth + HiApps + HiCommon

  /** The `es` table (lines 141-152). */
  const EsTable: map<string, string> := map[
    "nav.newChat" := "Nuevo Chat",
    "nav.settings" := "Configuración",
    "nav.login" := "Iniciar Sesión",
    "nav.logout" := "Cerrar Sesión",
    "voice.tapToSpeak" := "TOCA PARA HABLAR",
    "voice.tapToStop" := "TOCA PARA DETENER",
    "voice.processing" := "PROCESANDO...",
    "voice.jarvisReady" := "Jarvis Listo",
    "settings.title" := "Configuración",
    "settings.subtitle" := "Administra tus preferencias",
    "settings.language" := "Idioma",
    "settings.selectLanguage" := "Selecciona tu idioma preferido"
  ]

  /** The `fr` table (lines 155-166). */
  const FrTable: map<string, string> := map[
    "nav.newChat" := "Nouveau Chat",
    "nav.settings" := "Paramètres",
    "nav.login" := "Connexion",
    "nav.logout" := "Déconnexion",
    "voice.tapToSpeak" := "APPUYEZ POUR PARLER",
    "voice.tapToStop" := "APPUYEZ POUR ARRÊTER",
    "voice.processing" := "TRAITEMENT...",
    "voice.jarvisReady" := "Jarvis Prêt",
    "settings.title" := "Paramètres",
    "settings.subtitle" := "Gérez vos préférences",
    "settings.language" := "Langue",
    "settings.selectLanguage" := "Sélectionnez votre langue préférée"
  ]

  /** The `de` table (lines 169-180). */
  const DeTable: map<string, string> := map[
    "nav.newChat" := "Neuer Chat",
    "nav.settings" := "Einstellungen",
    "nav.login" := "Anmelden",
    "nav.logout" := "Abmelden",
    "voice.tapToSpeak" := "TIPPEN ZUM SPRECHEN",
    "voice.tapToStop" := "TIPPEN ZUM STOPPEN",
    "voice.processing" := "VERARBEITUNG...",
    "voice.jarvisReady" := "Jarvis Bereit",
    "settings.title" := "Einstellungen",
    "settings.subtitle" := "Verwalten Sie Ihre Einstellungen",
    "settings.language" := "Sprache",
    "settings.selectLanguage" := "Wählen Sie Ihre bevorzugte Sprache"
  ]

  /** The `zh` table (lines 183-194). */
  const ZhTable: map<string, string> := map[
    "nav.newChat" := "新聊天",
    "nav.settings" := "设置",
    "nav.login" := "登录",
    "nav.logout" := "登出",
    "voice.tapToSpeak" := "点击说话",
    "voice.tapToStop" := "点击停止",
    "voice.processing" := "处理中...",
    "voice.jarvisReady" := "Jarvis 准备好了",
    "settings.title" := "设置",
    "settings.subtitle" := "管理您的偏好",
    "settings.language" := "语言",
    "settings.selectLanguage" := "选择您的首选语言"
  ]

  // ---------------------------------------------------------------------------
  // The shape of the tables

  /** Every entry is a non-empty string that differs from its key. */
  ghost predicate Proper(table: map<string, string>) {
    forall k :: k in table ==> table[k] != "" && table[k] != k
  }

  lemma ProperUnion(a: map<string, string>, b: map<string, string>)
    requires Proper(a) && Proper(b)
    ensures Proper(a + b)
  {
    forall k | k in a + b ensures (a + b)[k] != "" && (a + b)[k] != k {
      if k in b {
        assert (a + b)[k] == b[k];
      } else {
        assert (a + b)[k] == a[k];
      }
    }
  }

  lemma KeysUnion(a: map<string, string>, b: map<string, string>, c: map<string, string>, d: map<string, string>)
    requires a.Keys <= c.Keys && b.Keys <= d.Keys
    ensures (a + b).Keys <= (c + d).Keys
  {
  }

  lemma EnNavigationProper()
    ensures Proper(EnNavigation)
  {
  }

  lemma EnVoiceProper()
    ensures Proper(EnVoice)
  {
  }

  lemma EnSettingsProper()
    ensures Proper(EnSettings)
  {
  }

  lemma EnAuthProper()
    ensures Proper(EnAuth)
  {
  }

  lemma EnAppsProper()
    ensures Proper(EnApps)
  {
  }

  lemma EnCommonProper()
    ensures Proper(EnCommon)
  {
  }

  lemma HiNavigationProper()
    ensures Proper(HiNavigation)
  {
  }

  lemma HiVoiceProper()
    ensures Proper(HiVoice)
  {
  }

  lemma HiSettingsProper()
    ensures Proper(HiSettings)
  {
  }

  lemma HiAuthProper()
    ensures Proper(HiAuth)
  {
  }

  lemma HiAppsProper()
    ensures Proper(HiApps)
  {
  }

  lemma HiCommonProper()
    ensures Proper(HiCommon)
  {
  }

  lemma EsTableProper()
    ensures Proper(EsTable)
  {
  }

  lemma FrTableProper()
    ensures Proper(FrTable)
  {
  }

  lemma DeTableProper()
    ensures Proper(DeTable)
  {
  }

  lemma ZhTableProper()
    ensures Proper(ZhTable)
  {
  }

  lemma EnglishProper()
    ensures Proper(EnTable)
  {
    EnNavigationProper();
    EnVoiceProper();
    EnSettingsProper();
    EnAuthProper();
    EnAppsProper();
    EnCommonProper();
    ProperUnion(EnNavigation, EnVoice);
    ProperUnion(EnNavigation + EnVoice, EnSettings);
    ProperUnion(EnNavigation + EnVoice + EnSettings, EnAuth);
    ProperUnion(EnNavigation + EnVoice + EnSettings + EnAuth, EnApps);
    ProperUnion(EnNavigation + EnVoice + EnSettings + EnAuth + EnApps, EnCommon);
  }

  lemma HindiProper()
    ensures Proper(HiTable)
  {
    HiNavigationProper();
    HiVoiceProper();
    HiSettingsProper();
    HiAuthProper();
    HiAppsProper();
    HiCommonProper();
    ProperUnion(HiNavigation, HiVoice);
    ProperUnion(HiNavigation + HiVoice, HiSettings);
    ProperUnion(HiNavigation + HiVoice + HiSettings, HiAuth);
    ProperUnion(HiNavigation + HiVoice + HiSettings + HiAuth, HiApps);
    ProperUnion(HiNavigation + HiVoice + HiSettings + HiAuth + HiApps, HiCommon);
  }

  lemma HiNavigationKeys()
    ensures HiNavigation.Keys <= EnNavigation.Keys
  {
  }

  lemma HiVoiceKeys()
    ensures HiVoice.Keys <= EnVoice.Keys
  {
  }

  lemma HiSettingsKeys()
    ensures HiSettings.Keys <= EnSettings.Keys
  {
  }

  lemma HiAuthKeys()
    ensures HiAuth.Keys <= EnAuth.Keys
  {
  }

  lemma HiAppsKeys()
    ensures HiApps.Keys <= EnApps.Keys
  {
  }

  lemma HiCommonKeys()
    ensures HiCommon.Keys <= EnCommon.Keys
  {
  }

  /** The Hindi table has the English sections' keys, section by section. */
  lemma HindiKeysInEnglish()
    ensures HiTable.Keys <= EnTable.Keys
  {
    HiNavigationKeys();
    HiVoiceKeys();
    HiSettingsKeys();
    HiAuthKeys();
    HiAppsKeys();
    HiCommonKeys();
    KeysUnion(HiNavigation, HiVoice, EnNavigation, EnVoice);
    KeysUnion(HiNavigation + HiVoice, HiSettings, EnNavigation + EnVoice, EnSettings);
    KeysUnion(HiNavigation + HiVoice + HiSettings, HiAuth, EnNavigation + EnVoice + EnSettings, EnAuth);
    KeysUnion(HiNavigation + HiVoice + HiSettings + HiAuth, HiApps, EnNavigation + EnVoice + EnSettings + EnAuth, EnApps);
    KeysUnion(HiNavigation + HiVoice + HiSettings + HiAuth + HiApps, HiCommon, EnNavigation + EnVoice + EnSettings + EnAuth + EnApps, EnCommon);
  }

  /** The other four tables only translate navigation, voice and settings keys. */
  lemma SpanishKeys()
    ensures EsTable.Keys <= (EnNavigation + EnVoice + EnSettings).Keys
  {
  }

  lemma FrenchKeys()
    ensures FrTable.Keys <= (EnNavigation + EnVoice + EnSettings).Keys
  {
  }

  lemma GermanKeys()
    ensures DeTable.Keys <= (EnNavigation + EnVoice + EnSettings).Keys
  {
  }

  lemma ChineseKeys()
    ensures ZhTable.Keys <= (EnNavigation + EnVoice + EnSettings).Keys
  {
  }

  lemma FirstSectionsInEnglish()
    ensures (EnNavigation + EnVoice + EnSettings).Keys <= EnTable.Keys
  {
  }

  /** What the lookup needs of a table: proper entries, and no key English lacks. */
  ghost predicate Fallback(table: map<string, string>) {
    Proper(table) && table.Keys <= EnTable.Keys
  }

  lemma EnglishFallback()
    ensures Fallback(EnTable)
  {
    EnglishProper();
  }

  lemma HindiFallback()
    ensures Fallback(HiTable)
  {
    HindiProper();
    HindiKeysInEnglish();
  }

  lemma SpanishFallback()
    ensures Fallback(EsTable)
  {
    EsTableProper();
    SpanishKeys();
    FirstSectionsInEnglish();
  }

  lemma FrenchFallback()
    ensures Fallback(FrTable)
  {
    FrTableProper();
    FrenchKeys();
    FirstSectionsInEnglish();
  }

  lemma GermanFallback()
    ensures Fallback(DeTable)
  {
    DeTableProper();
    GermanKeys();
    FirstSectionsInEnglish();
  }

  lemma ChineseFallback()
    ensures Fallback(ZhTable)
  {
    ZhTableProper();
    ChineseKeys();
    FirstSectionsInEnglish();
  }

  /**
    * The table of each language. Every one falls back properly on English:
    * its strings are non-empty and differ from their keys, and English has
    * every key it has.
    */
  function TableOf(lang: Language): (t: map<string, string>)
    ensures Fallback(t)
  {
    match lang
    case En => EnglishFallback(); EnTable
    case Hi => HindiFallback(); HiTable
    case Es => SpanishFallback(); EsTable
    case Fr => FrenchFallback(); FrTable
    case De => GermanFallback(); DeTable
    case Zh => ChineseFallback(); ZhTable
  }

  // ---------------------------------------------------------------------------
  // The lookup (lines 214-216)

  /** A table entry as `||` sees it: an absent entry and an empty one are both falsy. */
  predicate HasText(table: map<string, string>, key: string) {
    key in table && table[key] != ""
  }

  /** `current[key] || english[key] || key`. */
  function Resolve(current: map<string, string>, english: map<string, string>, key: string): string {
    if HasText(current, key) then current[key]
    else if HasText(english, key) then english[key]
    else key
  }

  /**
    * `t(key)` while `lang` is the current language. A non-empty key never
    * translates to the empty string.
    */
  function Translate(lang: Language, key: string): (r: string)
    ensures key != "" ==> r != ""
  {
    EnglishFallback();
    ResolveFacts(TableOf(lang), EnTable, key);
    Resolve(TableOf(lang), EnTable, key)
  }

  /** The current language's string wins when it has one. */
  lemma TranslateCurrent(lang: Language, key: string)
    requires key in TableOf(lang)
    ensures Translate(lang, key) == TableOf(lang)[key]
  {
  }

  /** A key the current language lacks falls back to English. */
  lemma TranslateEnglishFallback(lang: Language, key: string)
    requires key !in TableOf(lang) && key in EnTable
    ensures Translate(lang, key) == EnTable[key]
  {
    EnglishFallback();
  }

  /** A key neither table has comes back as itself. */
  lemma TranslateMissingKey(lang: Language, key: string)
    requires key !in TableOf(lang) && key !in EnTable
    ensures Translate(lang, key) == key
  {
  }

  /**
    * With proper tables whose keys English covers, the fallback chain
    * gives a non-empty string for a non-empty key, and gives the key back
    * exactly when English has no entry for it.
    */
  lemma ResolveFacts(current: map<string, string>, english: map<string, string>, key: string)
    requires Proper(current) && Proper(english) && current.Keys <= english.Keys
    ensures key != "" ==> Resolve(current, english, key) != ""
    ensures Resolve(current, english, key) == key <==> key !in english
  {
  }

  /** `t(key)` is the key itself exactly when English has no entry for it, in every language. */
  lemma TranslateIsKeyIff(lang: Language, key: string)
    ensures Translate(lang, key) == key <==> key !in EnTable
  {
    EnglishFallback();
    ResolveFacts(TableOf(lang), EnTable, key);
  }

  // ---------------------------------------------------------------------------
  // The provider (lines 200-212)

  /** `(saved as Language) || 'hi'`: the stored code unless it is absent or empty. */
  function InitialLanguage(saved: Option<string>): (r: string)
    ensures r != ""
    ensures saved.Some? && saved.value != "" ==> r == saved.value
    ensures saved.None? || saved == Some("") ==> r == "hi"
  {
    if saved.Some? && saved.value != "" then saved.value else "hi"
  }

  /**
    * The provider's state: the current language and the `language` entry of
    * `localStorage`. The effect of lines 206-208 runs after the first render
    * and after every change, so the stored entry always follows the state.
    * The stored code is not checked against the six codes.
    */
  class LanguageProvider {
    var language: string
    var stored: Option<string>

    constructor(saved: Option<string>)
      ensures language == InitialLanguage(saved)
      ensures stored == Some(language)
    {
      language := InitialLanguage(saved);
      stored := Some(language);
    }

    /** `setLanguage`, followed by the persisting effect. */
    method SetLanguage(lang: string)
      modifies this
      ensures language == lang && stored == Some(lang)
      ensures lang != "" ==> InitialLanguage(stored) == lang
    {
      language := lang;
      stored := Some(lang);
    }

    /**
      * `t`, bound to the current language. There is no result when the
      * stored code is not one of the six: reading a key of `undefined` throws.
      */
    function T(key: string): (r: Option<string>)
      reads this
      ensures r.Some? <==> IsLanguage(language)
      ensures r.Some? ==> r.value == Translate(LanguageOf(language).value, key)
      ensures r.Some? && key != "" ==> r.value != ""
    {
      match LanguageOf(language)
      case None => None
      case Some(lang) => Some(Translate(lang, key))
    }
  }
}
