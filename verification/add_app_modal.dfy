/**
  * The "Manage Applications" dialog: three text fields, the validation that
  * runs when "Add Application" is pressed, the comma-separated alias parser,
  * and deletion from the saved-app list.
  */
module AddAppModal {
  import opened Wrappers
  import opened JsString
  import opened Lists
  import opened SavedApps

  const MissingFieldsToast := Toast("⚠️ Error", "Please fill in both display name and URL", true)
  const InvalidUrlToast := Toast("⚠️ Invalid URL", "Please enter a valid URL or deep link", true)

  // ---------------------------------------------------------------------------
  // The URL pattern /^(https?:\/\/|tel:|mailto:|wa\.me|[a-z]+:\/\/)/i

  predicate IsAsciiLetter(c: char) {
    'a' <= c <= 'z' || 'A' <= c <= 'Z'
  }

  /** A non-empty run of ASCII letters followed by `://` at the start of `s`. */
  ghost predicate SchemePrefixAt(s: string, n: int) {
    1 <= n && n + 3 <= |s| && (forall k :: 0 <= k < n ==> IsAsciiLetter(s[k])) && s[n..n + 3] == "://"
  }

  /** What the pattern accepts: one of its five alternatives matches at the start. */
  ghost predicate MatchesUrlPattern(s: string) {
    || StartsWithIgnoringCase(s, "http://")
    || StartsWithIgnoringCase(s, "https://")
    || StartsWithIgnoringCase(s, "tel:")
    || StartsWithIgnoringCase(s, "mailto:")
    || StartsWithIgnoringCase(s, "wa.me")
    || exists n :: SchemePrefixAt(s, n)
  }

  /** The length of the run of ASCII letters that starts `s`. */
  function LetterRun(s: string): (n: nat)
    ensures n <= |s|
    ensures forall k :: 0 <= k < n ==> IsAsciiLetter(s[k])
    ensures n == |s| || !IsAsciiLetter(s[n])
  {
    if s != [] && IsAsciiLetter(s[0]) then
      var n := 1 + LetterRun(s[1..]);
      assert forall k :: 1 <= k < n ==> s[k] == s[1..][k - 1];
      n
    else 0
  }

  /** `urlPattern.test(s)`, decided by one scan instead of a backtracking search. */
  function IsAcceptedUrl(s: string): (r: bool)
    ensures r <==> MatchesUrlPattern(s)
  {
    var n := LetterRun(s);
    var r := || StartsWithIgnoringCase(s, "http://")
             || StartsWithIgnoringCase(s, "https://")
             || StartsWithIgnoringCase(s, "tel:")
             || StartsWithIgnoringCase(s, "mailto:")
             || StartsWithIgnoringCase(s, "wa.me")
             || (1 <= n && n + 3 <= |s| && s[n..n + 3] == "://");
    assert (1 <= n && n + 3 <= |s| && s[n..n + 3] == "://") ==> SchemePrefixAt(s, n);
    assert (exists m :: SchemePrefixAt(s, m)) ==> SchemePrefixAt(s, n) by {
      if exists m :: SchemePrefixAt(s, m) {
        var m :| SchemePrefixAt(s, m);
        assert s[m] == s[m..m + 3][0] == ':';
        assert !(n > m);
        assert !(n < m);
      }
    }
    r
  }

  /** The letter run is pinned down by where the first non-letter stands. */
  lemma LetterRunIs(s: string, n: nat)
    requires n <= |s| && (n == |s| || !IsAsciiLetter(s[n]))
    requires forall k :: 0 <= k < n ==> IsAsciiLetter(s[k])
    ensures LetterRun(s) == n
  {
  }

  lemma PrefixMatches(s: string, p: string)
    requires p <= s && Lower(p) == p
    ensures StartsWithIgnoringCase(s, p)
  {
    assert s[..|p|] == p;
  }

  lemma PrefixDiffers(s: string, p: string, k: nat)
    requires k < |p| && (|p| <= |s| ==> LowerChar(s[k]) != p[k])
    ensures !StartsWithIgnoringCase(s, p)
  {
    if |p| <= |s| {
      assert Lower(s[..|p|])[k] == LowerChar(s[k]);
    }
  }

  /** The form's own placeholder examples are accepted. */
  lemma PlaceholderUrlsAccepted()
    ensures IsAcceptedUrl("https://youtube.com")
    ensures IsAcceptedUrl("tel:+919876543210")
    ensures IsAcceptedUrl("https://wa.me/919876543210")
  {
    PrefixMatches("https://youtube.com", "https://");
    PrefixMatches("tel:+919876543210", "tel:");
    PrefixMatches("https://wa.me/919876543210", "https://");
  }

  /** Case is ignored. */
  lemma UpperCaseUrlAccepted()
    ensures IsAcceptedUrl("WA.ME/919876543210")
  {
    var s := "WA.ME/919876543210";
    var l := Lower(s[..5]);
    assert l[0] == 'w' && l[1] == 'a' && l[2] == '.' && l[3] == 'm' && l[4] == 'e';
    assert l == "wa.me";
  }

  /** Any letters-only scheme counts as a deep link. */
  lemma SchemeUrlAccepted()
    ensures IsAcceptedUrl("spotify://track")
  {
    var t := "spotify://track";
    assert SchemePrefixAt(t, 7) by {
      assert t[7..10] == "://";
    }
  }

  /** None of the four fixed prefixes nor `wa.me` starts a string whose first character is not one of theirs. */
  lemma NoFixedPrefix(s: string)
    requires s != [] && LowerChar(s[0]) !in "htmw"
    ensures !StartsWithIgnoringCase(s, "http://") && !StartsWithIgnoringCase(s, "https://")
    ensures !StartsWithIgnoringCase(s, "tel:") && !StartsWithIgnoringCase(s, "mailto:")
    ensures !StartsWithIgnoringCase(s, "wa.me")
  {
    PrefixDiffers(s, "http://", 0);
    PrefixDiffers(s, "https://", 0);
    PrefixDiffers(s, "tel:", 0);
    PrefixDiffers(s, "mailto:", 0);
    PrefixDiffers(s, "wa.me", 0);
  }

  /** Without a fixed prefix, a string whose letter run is not followed by `://` is rejected. */
  lemma NoSchemeRejected(s: string, n: nat)
    requires s != [] && LowerChar(s[0]) !in "htmw"
    requires LetterRun(s) == n && (n == 0 || n == |s| || s[n] != ':')
    ensures !IsAcceptedUrl(s)
  {
    NoFixedPrefix(s);
    if 1 <= n && n + 3 <= |s| {
      assert s[n..n + 3][0] == s[n];
    }
  }

  /** A bare host name is not a URL to the form, nor is a scheme without letters. */
  lemma BareHostRejected()
    ensures !IsAcceptedUrl("youtube.com")
  {
    var s := "youtube.com";
    LetterRunIs(s, 7);
    NoSchemeRejected(s, 7);
  }

  lemma EmptySchemeRejected()
    ensures !IsAcceptedUrl("://host")
  {
    var s := "://host";
    LetterRunIs(s, 0);
    NoSchemeRejected(s, 0);
  }

  // ---------------------------------------------------------------------------
  // Aliases

  /**
    * `pieces.map(a => a.trim()).filter(a => a.length > 0)`: every piece
    * trimmed, the blank ones dropped, the order kept.
    */
  function KeepTrimmed(pieces: seq<string>): (r: seq<string>)
    ensures |r| <= |pieces|
  {
    if pieces == [] then []
    else if Trim(pieces[0]) == [] then KeepTrimmed(pieces[1..])
    else [Trim(pieces[0])] + KeepTrimmed(pieces[1..])
  }

  /**
    * `aliases.split(',').map(a => a.trim()).filter(a => a.length > 0)`: at
    * most one alias per comma-separated piece.
    */
  function ParseAliases(field: string): (r: seq<string>)
    ensures |r| <= |Split(field, ',')|
  {
    KeepTrimmed(Split(field, ','))
  }

  /** An alias as the form stores it: non-empty, trimmed, without a comma. */
  predicate IsCleanAlias(a: string) {
    a != [] && Trim(a) == a && ',' !in a
  }

  /** A piece that is not blank survives as its trimmed self. */
  lemma {:induction false} KeptPiece(pieces: seq<string>, i: nat)
    requires i < |pieces| && Trim(pieces[i]) != []
    ensures Trim(pieces[i]) in KeepTrimmed(pieces)
    decreases i
  {
    if i > 0 {
      KeptPiece(pieces[1..], i - 1);
      assert pieces[1..][i - 1] == pieces[i];
      KeptTail(pieces);
    }
  }

  /** What the pieces after the first keep, all of them keep. */
  lemma KeptTail(pieces: seq<string>)
    requires pieces != []
    ensures forall a :: a in KeepTrimmed(pieces[1..]) ==> a in KeepTrimmed(pieces)
  {
  }

  /** The piece a kept alias came from. */
  lemma AliasSource(pieces: seq<string>, a: string) returns (i: nat)
    requires a in KeepTrimmed(pieces)
    ensures i < |pieces| && a == Trim(pieces[i]) && a != []
  {
    assert pieces[0..] == pieces;
    i := AliasSourceFrom(pieces, 0, a);
  }

  /** The piece, from index `k` on, that a kept alias of `pieces[k..]` came from. */
  lemma {:induction false} AliasSourceFrom(pieces: seq<string>, k: nat, a: string) returns (i: nat)
    requires k <= |pieces| && a in KeepTrimmed(pieces[k..])
    ensures k <= i < |pieces| && a == Trim(pieces[i]) && a != []
    decreases |pieces| - k
  {
    KeptFromHeadOrTail(pieces[k..], a);
    assert pieces[k..][1..] == pieces[k + 1..];
    if a in KeepTrimmed(pieces[k + 1..]) {
      i := AliasSourceFrom(pieces, k + 1, a);
    } else {
      assert pieces[k..][0] == pieces[k];
      i := k;
    }
  }

  /** A kept alias comes from the first piece or from the ones after it. */
  lemma KeptFromHeadOrTail(pieces: seq<string>, a: string)
    requires a in KeepTrimmed(pieces)
    ensures pieces != []
    ensures (Trim(pieces[0]) != [] && a == Trim(pieces[0])) || a in KeepTrimmed(pieces[1..])
  {
  }

  /** Every parsed alias is a trimmed comma-separated piece of the field. */
  lemma ParsedAliasesComeFromPieces(field: string)
    ensures forall a :: a in ParseAliases(field) ==> a != [] && exists p :: p in Split(field, ',') && a == Trim(p)
  {
    var pieces := Split(field, ',');
    forall a | a in ParseAliases(field) ensures a != [] && exists p :: p in pieces && a == Trim(p) {
      var i := AliasSource(pieces, a);
      assert pieces[i] in pieces;
    }
  }

  /** Every non-blank comma-separated piece of the field, trimmed, is among the parsed aliases. */
  lemma PiecesBecomeAliases(field: string)
    ensures forall p :: p in Split(field, ',') && Trim(p) != [] ==> Trim(p) in ParseAliases(field)
  {
    var pieces := Split(field, ',');
    forall p | p in pieces && Trim(p) != [] ensures Trim(p) in ParseAliases(field) {
      var i :| 0 <= i < |pieces| && pieces[i] == p;
      KeptPiece(pieces, i);
    }
  }

  /** Every parsed alias is non-empty, trimmed and free of commas. */
  lemma ParseAliasesClean(field: string)
    ensures forall a :: a in ParseAliases(field) ==> IsCleanAlias(a)
  {
    var pieces := Split(field, ',');
    SplitPiecesFree(field, ',');
    forall a | a in ParseAliases(field) ensures IsCleanAlias(a) {
      var i := AliasSource(pieces, a);
      TrimIdempotent(pieces[i]);
      TrimWithin(pieces[i]);
      assert ',' !in pieces[i];
    }
  }

  /** The field's text as the saved-app list shows it: `aliases.join(', ')`. */
  function ShownAliases(aliases: seq<string>): string
    requires |aliases| >= 1
  {
    if |aliases| == 1 then aliases[0] else aliases[0] + ", " + ShownAliases(aliases[1..])
  }

  /** Piece lists that differ only in a first piece with the same trimmed text keep alike. */
  lemma KeepTrimmedSameHead(x: seq<string>, y: seq<string>)
    requires |x| >= 1 && |y| >= 1 && x[1..] == y[1..] && Trim(x[0]) == Trim(y[0])
    ensures KeepTrimmed(x) == KeepTrimmed(y)
  {
  }

  /** A space in front of the field changes nothing: it is trimmed off the first piece. */
  lemma ParseLeadingSpace(field: string)
    ensures ParseAliases([' '] + field) == ParseAliases(field)
  {
    var pieces := Split(field, ',');
    SplitConsStep(' ', field, ',');
    TrimLeadingSpace(pieces[0]);
    KeepTrimmedSameHead(Split([' '] + field, ','), pieces);
  }

  lemma {:induction false} ParseSingle(a: string)
    requires IsCleanAlias(a)
    ensures ParseAliases(a) == [a]
  {
    SplitFreePrefix(a, "", ',');
    assert a + "" == a;
    assert Split(a, ',') == [a];
    assert [a][1..] == [];
  }

  /** What one piece in front contributes. */
  lemma KeepTrimmedCons(p: string, rest: seq<string>)
    ensures KeepTrimmed([p] + rest) == (if Trim(p) == [] then [] else [Trim(p)]) + KeepTrimmed(rest)
  {
    assert ([p] + rest)[0] == p && ([p] + rest)[1..] == rest;
  }

  /** Trimming and dropping work piece by piece: they distribute over concatenation. */
  lemma {:induction false} KeepTrimmedAppend(x: seq<string>, y: seq<string>)
    ensures KeepTrimmed(x + y) == KeepTrimmed(x) + KeepTrimmed(y)
    decreases |x|
  {
    if x == [] {
      assert x + y == y;
    } else {
      var head := if Trim(x[0]) == [] then [] else [Trim(x[0])];
      KeepTrimmedAppend(x[1..], y);
      HeadTail(x);
      ConsAppend(x, y);
      KeepTrimmedCons(x[0], x[1..] + y);
      KeepTrimmedCons(x[0], x[1..]);
      AppendAssoc(head, KeepTrimmed(x[1..]), KeepTrimmed(y));
    }
  }

  /** A clean alias followed by `, ` parses to that alias, then the rest. */
  lemma ParseShownHead(head: string, rest: string)
    requires IsCleanAlias(head)
    ensures ParseAliases(head + ", " + rest) == [head] + ParseAliases(rest)
  {
    assert head + ", " + rest == head + [','] + ([' '] + rest);
    SplitAtFirst(head, [' '] + rest, ',');
    var tail := Split([' '] + rest, ',');
    KeepTrimmedAppend([head], tail);
    assert [head][1..] == [];
    ParseLeadingSpace(rest);
  }

  /**
    * Round trip: an alias list as the dialog displays it, typed back into
    * the aliases field, parses to the same list.
    */
  lemma {:induction false} ParseShownAliases(aliases: seq<string>)
    requires |aliases| >= 1
    requires forall i :: 0 <= i < |aliases| ==> IsCleanAlias(aliases[i])
    ensures ParseAliases(ShownAliases(aliases)) == aliases
  {
    var shown := ShownAliases(aliases);
    if |aliases| == 1 {
      assert shown == aliases[0];
      ParseSingle(aliases[0]);
      HeadTail(aliases);
    } else {
      var tail := aliases[1..];
      var shownTail := ShownAliases(tail);
      assert shown == aliases[0] + ", " + shownTail;
      ParseShownAliases(tail);
      ParseShownHead(aliases[0], shownTail);
      assert ParseAliases(shown) == [aliases[0]] + tail;
      HeadTail(aliases);
    }
  }

  // ---------------------------------------------------------------------------
  // The dialog

  /** What pressing "Add Application" makes of the three fields. */
  datatype Submission =
    | Refused(toast: Toast)
    | Accepted(name: string, link: string, aliases: seq<string>)

  /**
    * The checks of `handleAdd`, in order: both fields must be non-blank once
    * trimmed, then the trimmed URL must match the pattern. An accepted
    * submission carries the trimmed name and URL and clean aliases.
    */
  function Validate(displayName: string, url: string, aliases: string): (r: Submission)
    ensures r.Accepted? <==> Trim(displayName) != [] && Trim(url) != [] && MatchesUrlPattern(Trim(url))
    ensures r.Refused? && (Trim(displayName) == [] || Trim(url) == []) ==> r.toast == MissingFieldsToast
    ensures r.Refused? && Trim(displayName) != [] && Trim(url) != [] ==> r.toast == InvalidUrlToast
    ensures r.Accepted? ==>
      && r.name != [] && Trim(r.name) == r.name && r.name == Trim(displayName)
      && r.link == Trim(url)
      && r.aliases == ParseAliases(aliases)
      && forall a :: a in r.aliases ==> IsCleanAlias(a)
  {
    var name := Trim(displayName);
    var link := Trim(url);
    if name == [] || link == [] then Refused(MissingFieldsToast)
    else if !IsAcceptedUrl(link) then Refused(InvalidUrlToast)
    else
      TrimIdempotent(displayName);
      ParseAliasesClean(aliases);
      Accepted(name, link, ParseAliases(aliases))
  }

  class AddAppForm {
    var displayName: string
    var url: string
    var aliases: string
    /** The `useSavedApps` instance the dialog mounts. */
    const registry: SavedAppRegistry

    /** Opening the dialog: all three fields empty. */
    constructor (registry: SavedAppRegistry)
      ensures displayName == "" && url == "" && aliases == ""
      ensures this.registry == registry
    {
      displayName := "";
      url := "";
      aliases := "";
      this.registry := registry;
    }

    /** The three inputs' `onChange` handlers. */
    method Edit(displayName: string, url: string, aliases: string)
      modifies this
      ensures this.displayName == displayName && this.url == url && this.aliases == aliases
    {
      this.displayName := displayName;
      this.url := url;
      this.aliases := aliases;
    }

    /**
      * `handleAdd`: a refused submission shows its toast and leaves
      * everything as it was; an accepted one is appended to the saved apps
      * and the fields are cleared.
      */
    method HandleAdd(idClock: nat, createdClock: int) returns (toast: Toast)
      modifies this, registry
      ensures var v := Validate(old(displayName), old(url), old(aliases));
        v.Refused? ==> toast == v.toast && unchanged(this, registry)
      ensures var v := Validate(old(displayName), old(url), old(aliases));
        v.Accepted? ==>
          && registry.apps == old(registry.apps) + [SavedApp(AppId(idClock), v.name, v.link, Some(v.aliases), createdClock)]
          && registry.stored == Saved(registry.apps)
          && displayName == "" && url == "" && aliases == ""
          && toast == Toast("✓ App Added", old(displayName) + " has been saved", false)
    {
      var v := Validate(displayName, url, aliases);
      if v.Refused? {
        return v.toast;
      }
      toast := Save(v.name, v.link, v.aliases, idClock, createdClock);
    }

    /** The success path of `handleAdd`: append the app, clear the fields, confirm. */
    method Save(name: string, link: string, list: seq<string>, idClock: nat, createdClock: int) returns (toast: Toast)
      modifies this, registry
      ensures registry.apps == old(registry.apps) + [SavedApp(AppId(idClock), name, link, Some(list), createdClock)]
      ensures registry.stored == Saved(registry.apps)
      ensures displayName == "" && url == "" && aliases == ""
      ensures toast == Toast("✓ App Added", old(displayName) + " has been saved", false)
    {
      registry.AddApp(name, link, Some(list), idClock, createdClock);
      toast := Toast("✓ App Added", displayName + " has been saved", false);
      displayName := "";
      url := "";
      aliases := "";
    }

    /** `handleDelete`: the app with that id leaves the list; the fields are untouched. */
    method HandleDelete(id: string, name: string) returns (toast: Toast)
      modifies registry
      ensures registry.apps == RemoveApp(old(registry.apps), id)
      ensures registry.stored == Saved(registry.apps)
      ensures toast == Toast("✓ App Deleted", name + " has been removed", false)
    {
      registry.DeleteApp(id);
      toast := Toast("✓ App Deleted", name + " has been removed", false);
    }
  }

  /**
    * An app added through the dialog can be found again by the name it was
    * typed under: the exact-name tier matches it (or an earlier app of the
    * same name).
    */
  lemma AddedAppIsFound(apps: seq<SavedApp>, typedName: string, app: SavedApp)
    requires Trim(typedName) != [] && app.displayName == Trim(typedName)
    ensures var r := FindAppByName(apps + [app], typedName);
      r.Some? && Lower(r.value.displayName) == Lower(app.displayName)
  {
    var all := apps + [app];
    var q := NormalizeQuery(typedName);
    TrimLowerCommute(typedName);
    assert Matches(all[|apps|], q, ExactName);
    assert HasMatch(all, q, ExactName);
  }
}
