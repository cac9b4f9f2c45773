/**
 * The web-interface addon descriptor (CWebinterface): how an addon's
 * manifest settings "@type" and "@entry" become a kind (static files or a
 * WSGI application) and an entry point, and the two values derived from them.
 *
 * What the descriptor borrows from the addon framework is supplied from outside:
 * the addon's id and library path, its settings as a map from key to value
 * (a key that is absent reads as the empty string), the warning sink as a
 * `Log` object, and the path join URIUtils::AddFileToFolder as a function
 * parameter whose behaviour the model leaves open.
 */
module Webinterface {
  import opened AsciiCase

  /** The two kinds of web interface; "static" and "html" both mean Static. */
  datatype WebinterfaceType = Static | Wsgi

  /**
   * WEBINTERFACE_DEFAULT_ENTRY_POINT. Its header is not part of this model;
   * the value is "index.html", and no proof depends on more
   * than its being non-empty.
   */
  const DefaultEntryPoint: string := "index.html"

  /** The prefix of a WSGI interface's base location. */
  const AddonsPrefix: string := "/addons/"

  /** A key-value settings block: an extension's configuration or an addon's type settings. */
  type Settings = map<string, string>

  /** The value stored for `key`, or the empty string when there is none. */
  function Setting(settings: Settings, key: string): (v: string)
    ensures key in settings ==> v == settings[key]
    ensures v != "" ==> key in settings
  {
    if key in settings then settings[key] else ""
  }

  /** What the descriptor reads from its addon: id, library path and its own type settings. */
  datatype AddonInfo = AddonInfo(id: string, libPath: string, typeSettings: Settings)

  /** The one diagnostic the descriptor emits: an unsupported "@type" value of an addon. */
  datatype Warning = UnsupportedType(addonId: string, value: string)

  /** The warning sink: the warnings emitted so far, in order. */
  class Log {
    var warnings: seq<Warning>

    constructor ()
      ensures warnings == []
    {
      warnings := [];
    }

    method Warn(w: Warning)
      modifies this
      ensures warnings == old(warnings) + [w]
    {
      warnings := warnings + [w];
    }
  }

  /** The kind a "@type" value selects: Wsgi exactly for "wsgi" in any letter case. */
  function KindOf(rawType: string): (k: WebinterfaceType)
    ensures k == Wsgi <==> SameFolding(rawType, "wsgi")
  {
    EqualsNoCaseIsSameFolding(rawType, "wsgi");
    if EqualsNoCase(rawType, "wsgi") then Wsgi else Static
  }

  /** Whether a "@type" value draws a warning: non-empty and none of the three known names. */
  function IsUnsupportedType(rawType: string): (b: bool)
    ensures b <==> rawType != [] && !SameFolding(rawType, "wsgi")
                   && !SameFolding(rawType, "static") && !SameFolding(rawType, "html")
  {
    EqualsNoCaseIsSameFolding(rawType, "wsgi");
    EqualsNoCaseIsSameFolding(rawType, "static");
    EqualsNoCaseIsSameFolding(rawType, "html");
    !EqualsNoCase(rawType, "wsgi") && rawType != []
    && !EqualsNoCase(rawType, "static") && !EqualsNoCase(rawType, "html")
  }

  /** The warnings that reading a "@type" value emits for addon `addonId`. */
  function WarningsFor(addonId: string, rawType: string): (ws: seq<Warning>)
    ensures |ws| <= 1
    ensures ws != [] <==> IsUnsupportedType(rawType)
    ensures forall w :: w in ws ==> w.addonId == addonId && w.value == rawType
  {
    if IsUnsupportedType(rawType) then [UnsupportedType(addonId, rawType)] else []
  }

  /** The entry point an "@entry" value selects: the value itself, or the default when empty. */
  function EntryPointOf(rawEntry: string): (e: string)
    ensures e != []
    ensures rawEntry != [] ==> e == rawEntry
    ensures rawEntry == [] ==> e == DefaultEntryPoint
  {
    if rawEntry != [] then rawEntry else DefaultEntryPoint
  }

  /** Any letter case of "wsgi", and nothing else, selects Wsgi; it never warns. */
  lemma WsgiInAnyCase(addonId: string, rawType: string)
    ensures KindOf(rawType) == Wsgi <==> SpellsInAnyCase(rawType, "wsgi")
    ensures KindOf(rawType) == Wsgi ==> WarningsFor(addonId, rawType) == []
  {
    if SpellsInAnyCase(rawType, "wsgi") {
      SpellingInAnyCaseEqualsNoCase(rawType, "wsgi");
      EqualsNoCaseIsSameFolding(rawType, "wsgi");
    }
    if KindOf(rawType) == Wsgi {
      EqualsNoCaseIsSameFolding(rawType, "wsgi");
      EqualsNoCaseIsSpellingInAnyCase(rawType, "wsgi");
    }
  }

  /** The empty value and any letter case of "static" or "html" select Static without a warning. */
  lemma StaticSpellingsDoNotWarn(addonId: string, rawType: string)
    requires rawType == [] || SpellsInAnyCase(rawType, "static") || SpellsInAnyCase(rawType, "html")
    ensures KindOf(rawType) == Static
    ensures WarningsFor(addonId, rawType) == []
  {
    if rawType != [] {
      var word := if SpellsInAnyCase(rawType, "static") then "static" else "html";
      SpellingInAnyCaseEqualsNoCase(rawType, word);
      EqualsNoCaseIsSameFolding(rawType, word);
      assert ToLower(rawType[0]) != 'w';
    }
  }

  /** Any other non-empty value selects Static and draws exactly one warning naming the addon and the value. */
  lemma UnsupportedTypeWarnsOnce(addonId: string, rawType: string)
    requires rawType != []
    requires !SpellsInAnyCase(rawType, "wsgi")
    requires !SpellsInAnyCase(rawType, "static") && !SpellsInAnyCase(rawType, "html")
    ensures KindOf(rawType) == Static
    ensures WarningsFor(addonId, rawType) == [UnsupportedType(addonId, rawType)]
  {
    if EqualsNoCase(rawType, "wsgi") {
      EqualsNoCaseIsSpellingInAnyCase(rawType, "wsgi");
    }
    if EqualsNoCase(rawType, "static") {
      EqualsNoCaseIsSpellingInAnyCase(rawType, "static");
    }
    if EqualsNoCase(rawType, "html") {
      EqualsNoCaseIsSpellingInAnyCase(rawType, "html");
    }
  }

  /** One web-interface addon: its borrowed identity, its kind and its entry point. */
  class Webinterface {
    const id: string
    const libPath: string
    var kind: WebinterfaceType
    var entryPoint: string

    /** The explicit constructor: stores the given kind and entry point as they are. */
    constructor Create(addon: AddonInfo, kind: WebinterfaceType, entryPoint: string)
      ensures id == addon.id && libPath == addon.libPath
      ensures this.kind == kind && this.entryPoint == entryPoint
    {
      id := addon.id;
      libPath := addon.libPath;
      this.kind := kind;
      this.entryPoint := entryPoint;
    }

    /**
     * The self-parsing constructor: starts from Static and the default entry
     * point, then overrides them from the addon's own "@type" and "@entry".
     */
    constructor FromAddon(addon: AddonInfo, log: Log)
      modifies log
      ensures id == addon.id && libPath == addon.libPath
      ensures kind == KindOf(Setting(addon.typeSettings, "@type"))
      ensures entryPoint == EntryPointOf(Setting(addon.typeSettings, "@entry"))
      ensures entryPoint != []
      ensures log.warnings == old(log.warnings) + WarningsFor(addon.id, Setting(addon.typeSettings, "@type"))
    {
      id := addon.id;
      libPath := addon.libPath;
      kind := Static;
      entryPoint := DefaultEntryPoint;
      new;
      var webinterfaceType := Setting(addon.typeSettings, "@type");
      if EqualsNoCase(webinterfaceType, "wsgi") {
        kind := Wsgi;
      } else if webinterfaceType != [] && !EqualsNoCase(webinterfaceType, "static")
                && !EqualsNoCase(webinterfaceType, "html") {
        log.Warn(UnsupportedType(id, webinterfaceType));
      }
      var entry := Setting(addon.typeSettings, "@entry");
      if entry != [] {
        entryPoint := entry;
      }
    }

    /**
     * The factory that reads "@type" and "@entry" from an extension's
     * configuration block, then builds the descriptor with the explicit constructor.
     */
    static method FromExtension(addon: AddonInfo, ext: Settings, log: Log) returns (w: Webinterface)
      modifies log
      ensures fresh(w)
      ensures w.id == addon.id && w.libPath == addon.libPath
      ensures w.kind == KindOf(Setting(ext, "@type"))
      ensures w.entryPoint == EntryPointOf(Setting(ext, "@entry"))
      ensures w.entryPoint != []
      ensures log.warnings == old(log.warnings) + WarningsFor(addon.id, Setting(ext, "@type"))
    {
      var kind := Static;
      var webinterfaceType := Setting(ext, "@type");
      if EqualsNoCase(webinterfaceType, "wsgi") {
        kind := Wsgi;
      } else if webinterfaceType != [] && !EqualsNoCase(webinterfaceType, "static")
                && !EqualsNoCase(webinterfaceType, "html") {
        log.Warn(UnsupportedType(addon.id, webinterfaceType));
      }
      var entryPoint := DefaultEntryPoint;
      var entry := Setting(ext, "@entry");
      if entry != [] {
        entryPoint := entry;
      }
      w := new Webinterface.Create(addon, kind, entryPoint);
    }

    /**
     * Where serving starts: a WSGI interface's library, whatever `path` is;
     * otherwise the entry point joined onto `path` by `addFileToFolder`.
     */
    function GetEntryPoint(path: string, addFileToFolder: (string, string) -> string): (r: string)
      reads this
      ensures kind == Wsgi ==> r == libPath
      ensures kind == Static ==> r == addFileToFolder(path, entryPoint)
    {
      if kind == Wsgi then libPath else addFileToFolder(path, entryPoint)
    }

    /**
     * The URL under which a WSGI interface is mounted, "/addons/" followed by
     * the addon id; empty for a static interface.
     */
    function GetBaseLocation(): (r: string)
      reads this
      ensures kind == Static ==> r == []
      ensures kind == Wsgi ==> r != []
      ensures kind == Wsgi ==> |r| == |AddonsPrefix| + |id|
                               && r[..|AddonsPrefix|] == AddonsPrefix && r[|AddonsPrefix|..] == id
    {
      if kind == Wsgi then AddonsPrefix + id else []
    }

    /** A WSGI interface resolves to the same entry point from any two paths. */
    lemma WsgiEntryPointIgnoresPath(p: string, q: string, addFileToFolder: (string, string) -> string)
      requires kind == Wsgi
      ensures GetEntryPoint(p, addFileToFolder) == GetEntryPoint(q, addFileToFolder) == libPath
    {
    }
  }

  /**
   * The two ways of reading the settings agree: given the same "@type" and
   * "@entry" values, FromExtension and the self-parsing constructor build
   * descriptors with the same kind and entry point and emit the same warnings.
   */
  method ConstructionPathsAgree(addon: AddonInfo, ext: Settings, extLog: Log, addonLog: Log)
    returns (fromExtension: Webinterface, fromAddon: Webinterface)
    requires extLog != addonLog
    requires Setting(ext, "@type") == Setting(addon.typeSettings, "@type")
    requires Setting(ext, "@entry") == Setting(addon.typeSettings, "@entry")
    modifies extLog, addonLog
    ensures fromExtension.kind == fromAddon.kind
    ensures fromExtension.entryPoint == fromAddon.entryPoint
    ensures fromExtension.id == fromAddon.id && fromExtension.libPath == fromAddon.libPath
    ensures extLog.warnings == old(extLog.warnings) + WarningsFor(addon.id, Setting(ext, "@type"))
    ensures addonLog.warnings == old(addonLog.warnings) + WarningsFor(addon.id, Setting(ext, "@type"))
  {
    fromExtension := Webinterface.FromExtension(addon, ext, extLog);
    fromAddon := new Webinterface.FromAddon(addon, addonLog);
  }
}
