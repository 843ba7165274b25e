/**
  * The saved-app registry of the `useSavedApps` hook: a list of user-defined
  * launch targets written through to storage on every change, and the
  * three-tier name lookup the rest of the interface uses.
  */
module SavedApps {
  import opened Wrappers
  import opened JsString
  import opened Lists

  datatype SavedApp = SavedApp(
    id: string,
    displayName: string,
    url: string,
    aliases: Option<seq<string>>,
    createdAt: int)

  /** `Partial<SavedApp>`: the fields an update overwrites. */
  datatype AppPatch = AppPatch(
    id: Option<string>,
    displayName: Option<string>,
    url: Option<string>,
    aliases: Option<seq<string>>,
    createdAt: Option<int>)

  /** `app_${Date.now()}`. */
  function AppId(now: nat): (id: string)
    ensures |id| > 4 && id[..4] == "app_"
  {
    "app_" + NatToDecimal(now)
  }

  // ---------------------------------------------------------------------------
  // Updating and deleting

  /** `{ ...app, ...updates }`: each field present in the patch replaces the app's. */
  function Overlay(app: SavedApp, patch: AppPatch): (r: SavedApp)
    ensures patch == AppPatch(None, None, None, None, None) ==> r == app
    ensures patch.displayName.Some? ==> r.displayName == patch.displayName.value
    ensures patch.displayName.None? ==> r.displayName == app.displayName
    ensures patch.url.Some? ==> r.url == patch.url.value
    ensures patch.url.None? ==> r.url == app.url
    ensures patch.id.Some? ==> r.id == patch.id.value
    ensures patch.id.None? ==> r.id == app.id
    ensures patch.aliases.Some? ==> r.aliases == patch.aliases
    ensures patch.aliases.None? ==> r.aliases == app.aliases
    ensures patch.createdAt.Some? ==> r.createdAt == patch.createdAt.value
    ensures patch.createdAt.None? ==> r.createdAt == app.createdAt
  {
    SavedApp(
      if patch.id.Some? then patch.id.value else app.id,
      if patch.displayName.Some? then patch.displayName.value else app.displayName,
      if patch.url.Some? then patch.url.value else app.url,
      if patch.aliases.Some? then patch.aliases else app.aliases,
      if patch.createdAt.Some? then patch.createdAt.value else app.createdAt)
  }

  /** `apps.map(app => app.id === id ? { ...app, ...updates } : app)`. */
  function PatchApps(apps: seq<SavedApp>, id: string, patch: AppPatch): (r: seq<SavedApp>)
    ensures |r| == |apps|
    ensures forall i :: 0 <= i < |apps| && apps[i].id != id ==> r[i] == apps[i]
    ensures forall i :: 0 <= i < |apps| && apps[i].id == id ==> r[i] == Overlay(apps[i], patch)
  {
    seq(|apps|, i requires 0 <= i < |apps| => if apps[i].id == id then Overlay(apps[i], patch) else apps[i])
  }

  /** An update under an id no app has changes nothing. */
  lemma PatchUnknownId(apps: seq<SavedApp>, id: string, patch: AppPatch)
    requires forall i :: 0 <= i < |apps| ==> apps[i].id != id
    ensures PatchApps(apps, id, patch) == apps
  {
  }

  function LacksId(id: string): SavedApp -> bool {
    (a: SavedApp) => a.id != id
  }

  /** `apps.filter(app => app.id !== id)`: no app with the id is left, every other one is. */
  function RemoveApp(apps: seq<SavedApp>, id: string): (r: seq<SavedApp>)
    ensures forall a :: a in r <==> a in apps && a.id != id
  {
    FilterMembers(apps, LacksId(id));
    Filter(apps, LacksId(id))
  }

  /**
    * Deleting drops exactly the apps with that id, keeps the order of the
    * rest, is a no-op for an unknown id, and deleting twice equals deleting
    * once.
    */
  lemma RemoveAppSpec(apps: seq<SavedApp>, id: string)
    ensures forall a :: a in RemoveApp(apps, id) <==> a in apps && a.id != id
    ensures forall x, y :: apps == x + y ==> RemoveApp(apps, id) == RemoveApp(x, id) + RemoveApp(y, id)
    ensures (forall i :: 0 <= i < |apps| ==> apps[i].id != id) ==> RemoveApp(apps, id) == apps
    ensures RemoveApp(RemoveApp(apps, id), id) == RemoveApp(apps, id)
  {
    FilterMembers(apps, LacksId(id));
    forall x, y | apps == x + y ensures RemoveApp(apps, id) == RemoveApp(x, id) + RemoveApp(y, id) {
      FilterAppend(x, y, LacksId(id));
    }
    if forall i :: 0 <= i < |apps| ==> apps[i].id != id {
      FilterKeepsAll(apps, LacksId(id));
    }
    FilterIdempotent(apps, LacksId(id));
  }

  // ---------------------------------------------------------------------------
  // findAppByName

  /** The three lookup tiers, in priority order. */
  datatype Tier = ExactName | ExactAlias | PartialName

  predicate AliasIs(aliases: seq<string>, query: string) {
    exists k :: 0 <= k < |aliases| && Lower(aliases[k]) == query
  }

  /** Whether `app` matches the lowered, trimmed `query` in `tier`. */
  predicate Matches(app: SavedApp, query: string, tier: Tier) {
    match tier
    case ExactName => Lower(app.displayName) == query
    case ExactAlias => app.aliases.Some? && AliasIs(app.aliases.value, query)
    case PartialName => Contains(Lower(app.displayName), query) || Contains(query, Lower(app.displayName))
  }

  function MatchesIn(query: string, tier: Tier): SavedApp -> bool {
    (app: SavedApp) => Matches(app, query, tier)
  }

  /** Some app matches in `tier`. */
  ghost predicate HasMatch(apps: seq<SavedApp>, query: string, tier: Tier) {
    exists i :: 0 <= i < |apps| && Matches(apps[i], query, tier)
  }

  /** `apps[i]` is the first app, in list order, that matches in `tier`. */
  ghost predicate FirstMatchAt(apps: seq<SavedApp>, query: string, tier: Tier, i: int) {
    0 <= i < |apps| && Matches(apps[i], query, tier)
    && forall j :: 0 <= j < i ==> !Matches(apps[j], query, tier)
  }

  lemma FirstMatchUnique(apps: seq<SavedApp>, query: string, tier: Tier, i: int, k: int)
    requires FirstMatchAt(apps, query, tier, i) && FirstMatchAt(apps, query, tier, k)
    ensures i == k
  {
  }

  /** `apps.find(...)` for one tier. */
  function FirstMatch(apps: seq<SavedApp>, query: string, tier: Tier): (r: Option<SavedApp>)
    ensures r.None? <==> !HasMatch(apps, query, tier)
    ensures r.Some? ==> exists i :: FirstMatchAt(apps, query, tier, i) && r.value == apps[i]
  {
    var r := Find(apps, MatchesIn(query, tier));
    assert r.Some? ==> exists i :: FirstMatchAt(apps, query, tier, i) && r.value == apps[i] by {
      if r.Some? {
        var i :| 0 <= i < |apps| && apps[i] == r.value && MatchesIn(query, tier)(apps[i])
                 && forall j :: 0 <= j < i ==> !MatchesIn(query, tier)(apps[j]);
        assert FirstMatchAt(apps, query, tier, i);
      }
    }
    assert r.None? <==> !HasMatch(apps, query, tier) by {
      if HasMatch(apps, query, tier) {
        var i :| 0 <= i < |apps| && Matches(apps[i], query, tier);
        assert MatchesIn(query, tier)(apps[i]);
      }
    }
    r
  }

  /** `name.toLowerCase().trim()`: no whitespace at either end, and no longer than the name. */
  function NormalizeQuery(name: string): (r: string)
    ensures NoEdgeWhitespace(r)
    ensures |r| <= |name|
  {
    var lowered := Lower(name);
    assert |lowered| == |name|;
    Trim(lowered)
  }

  /**
    * `findAppByName`: an exact display-name match if there is one, else an
    * exact alias match, else a substring match either way; within a tier the
    * first app in list order; none exactly when no app matches in any tier.
    */
  function FindAppByName(apps: seq<SavedApp>, name: string): (r: Option<SavedApp>)
    ensures var q := NormalizeQuery(name);
      && (HasMatch(apps, q, ExactName) ==>
            exists i :: FirstMatchAt(apps, q, ExactName, i) && r == Some(apps[i]))
      && (!HasMatch(apps, q, ExactName) && HasMatch(apps, q, ExactAlias) ==>
            exists i :: FirstMatchAt(apps, q, ExactAlias, i) && r == Some(apps[i]))
      && (!HasMatch(apps, q, ExactName) && !HasMatch(apps, q, ExactAlias) && HasMatch(apps, q, PartialName) ==>
            exists i :: FirstMatchAt(apps, q, PartialName, i) && r == Some(apps[i]))
      && (r.None? <==> !HasMatch(apps, q, ExactName) && !HasMatch(apps, q, ExactAlias) && !HasMatch(apps, q, PartialName))
    ensures r.Some? ==> r.value in apps
  {
    var q := NormalizeQuery(name);
    var byName := FirstMatch(apps, q, ExactName);
    if byName.Some? then byName
    else
      var byAlias := FirstMatch(apps, q, ExactAlias);
      if byAlias.Some? then byAlias
      else FirstMatch(apps, q, PartialName)
  }

  /** An earlier tier wins over a later one wherever the later-tier match sits in the list. */
  lemma EarlierTierWins(apps: seq<SavedApp>, name: string, i: int, j: int)
    requires FirstMatchAt(apps, NormalizeQuery(name), ExactName, i)
    requires 0 <= j < i && Matches(apps[j], NormalizeQuery(name), PartialName)
    ensures FindAppByName(apps, name) == Some(apps[i])
    ensures apps[j] != apps[i] ==> FindAppByName(apps, name) != Some(apps[j])
  {
    var q := NormalizeQuery(name);
    assert HasMatch(apps, q, ExactName);
    var k :| FirstMatchAt(apps, q, ExactName, k) && FindAppByName(apps, name) == Some(apps[k]);
    FirstMatchUnique(apps, q, ExactName, i, k);
  }

  /** Every app added through the form has a non-blank name and non-empty aliases. */
  ghost predicate NamedApps(apps: seq<SavedApp>) {
    forall i :: 0 <= i < |apps| ==>
      apps[i].displayName != [] &&
      (apps[i].aliases.Some? ==> forall k :: 0 <= k < |apps[i].aliases.value| ==> apps[i].aliases.value[k] != [])
  }

  /**
    * A blank or whitespace-only query returns the first app, since every
    * name contains the empty string, provided no app has an empty name or
    * alias (which would match the empty query exactly).
    */
  lemma BlankQueryFindsFirst(apps: seq<SavedApp>, name: string)
    requires AllWhitespace(Lower(name))
    requires |apps| > 0 && NamedApps(apps)
    ensures FindAppByName(apps, name) == Some(apps[0])
  {
    var q := NormalizeQuery(name);
    assert q == [];
    assert !HasMatch(apps, q, ExactName) by {
      forall i | 0 <= i < |apps| ensures !Matches(apps[i], q, ExactName) {
        assert |Lower(apps[i].displayName)| > 0;
      }
    }
    assert !HasMatch(apps, q, ExactAlias) by {
      forall i | 0 <= i < |apps| ensures !Matches(apps[i], q, ExactAlias) {
        if apps[i].aliases.Some? {
          var al := apps[i].aliases.value;
          forall k | 0 <= k < |al| ensures Lower(al[k]) != q {
            assert |Lower(al[k])| > 0;
          }
        }
      }
    }
    ContainsEmpty(Lower(apps[0].displayName));
    assert FirstMatchAt(apps, q, PartialName, 0);
    assert HasMatch(apps, q, PartialName);
    var k :| FirstMatchAt(apps, q, PartialName, k) && FindAppByName(apps, name) == Some(apps[k]);
    FirstMatchUnique(apps, q, PartialName, 0, k);
  }

  // ---------------------------------------------------------------------------
  // The hook's state

  class SavedAppRegistry {
    var apps: seq<SavedApp>
    /** The record under the `jarvis_saved_apps` storage key. */
    var stored: Stored<seq<SavedApp>>

    /** Mounting the hook: load the stored list; absent or unparseable data leaves it empty. */
    constructor (persisted: Stored<seq<SavedApp>>)
      ensures stored == persisted
      ensures apps == if persisted.Saved? then persisted.value else []
    {
      stored := persisted;
      apps := [];
      new;
      if persisted.Saved? {
        apps := persisted.value;
      }
    }

    /** `saveToStorage`: write the full list, then replace the in-memory list. */
    method SaveToStorage(newApps: seq<SavedApp>)
      modifies this
      ensures stored == Saved(newApps) && apps == newApps
    {
      stored := Saved(newApps);
      apps := newApps;
    }

    /**
      * `addApp`: one app appended at the end; `aliases` defaults to the
      * empty list; `idClock` and `createdClock` are the two `Date.now()` readings.
      */
    method AddApp(displayName: string, url: string, aliases: Option<seq<string>>, idClock: nat, createdClock: int)
      modifies this
      ensures apps == old(apps) + [SavedApp(AppId(idClock), displayName, url, Some(if aliases.Some? then aliases.value else []), createdClock)]
      ensures stored == Saved(apps)
    {
      var list := if aliases.Some? then aliases.value else [];
      var app := SavedApp(AppId(idClock), displayName, url, Some(list), createdClock);
      SaveToStorage(apps + [app]);
    }

    /** `deleteApp`: every app with that id removed, the rest in order. */
    method DeleteApp(id: string)
      modifies this
      ensures apps == RemoveApp(old(apps), id)
      ensures stored == Saved(apps)
    {
      SaveToStorage(RemoveApp(apps, id));
    }

    /** `updateApp`: the patch overlaid on every app with that id. */
    method UpdateApp(id: string, patch: AppPatch)
      modifies this
      ensures apps == PatchApps(old(apps), id, patch)
      ensures stored == Saved(apps)
    {
      SaveToStorage(PatchApps(apps, id, patch));
    }

    /** `findAppByName` over the current list. */
    function Lookup(name: string): (r: Option<SavedApp>)
      reads this
      ensures r.Some? ==> r.value in apps
    {
      FindAppByName(apps, name)
    }
  }
}
