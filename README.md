# Web-interface addon descriptor

A Dafny model of Kodi's web-interface addon descriptor, `CWebinterface`
(`xbmc/addons/Webinterface.cpp`). A web-interface addon is either a set of
static files or a WSGI application. The descriptor reads two manifest settings:

- `@type` picks the kind. `"wsgi"` in any letter case gives `Wsgi`. Everything
  else gives `Static`, and a warning is logged if the value is non-empty and is
  not `"static"` or `"html"` in any letter case.
- `@entry`, when non-empty, replaces the default entry point.

The settings can be read in two ways: by the factory `FromExtension`, from an
extension's configuration block, or by the self-parsing constructor, from the
addon's own type settings. The descriptor also has two accessors. `GetEntryPoint`
returns the library path for WSGI, or joins a folder and the entry point for
static files. `GetBaseLocation` returns `/addons/<id>` for WSGI, or the empty
string for static files.

Files:

- `ascii_case.dfy` (module `AsciiCase`): the case-insensitive comparison
  `EqualsNoCase`. It folds ASCII letters to lower case one character at a time.
  It is proved equal to a position-by-position definition (`SameFolding`) and to
  "spelled with each letter in either case" (`SpellsInAnyCase`).
- `webinterface.dfy` (module `Webinterface`): the kind datatype, the settings
  blocks, the warning log, the class `Webinterface` with its two constructors,
  the `FromExtension` factory and the accessors, and the lemmas about
  classification and defaulting.

Parts that come from outside the descriptor are given as inputs:

- The addon id, the library path and the addon's type settings are an
  `AddonInfo` value.
- Each settings block is a `map<string, string>`. A missing key reads as `""`.
- The logger is a `Log` object that stores the warnings emitted so far as
  `UnsupportedType(addonId, value)` events.
- `URIUtils::AddFileToFolder` is a function parameter of `GetEntryPoint`.

## Model

| member | source | states |
|---|---|---|
| `AsciiCase.EqualsNoCase` | xbmc/addons/Webinterface.cpp:24-26 | the comparison `StringUtils::EqualsNoCase` (assumed to fold ASCII letters). Identical strings always compare equal, and strings of different lengths never do |
| `AsciiCase.EqualsNoCaseIsSameFolding` | xbmc/addons/Webinterface.cpp:49-51 | the case-insensitive comparison holds exactly when both strings have the same length and agree at every position after ASCII lower-casing |
| `AsciiCase.SpellingInAnyCaseEqualsNoCase` | xbmc/addons/Webinterface.cpp:49 | every spelling of a lower-case word with each letter in either case compares equal to the word |
| `AsciiCase.EqualsNoCaseIsSpellingInAnyCase` | xbmc/addons/Webinterface.cpp:49 | conversely, a string that compares equal to a lower-case word is that word with each letter in either case |
| `Webinterface.Setting` | xbmc/addons/Webinterface.cpp:48-55 | the value read for a settings key is the stored one when the key is present. A non-empty value means the key is present, so a missing key reads as empty |
| `Webinterface.KindOf` | xbmc/addons/Webinterface.cpp:44-50 | the kind is `Wsgi` exactly when the `@type` value folds to `"wsgi"`, and `Static` in every other case |
| `Webinterface.IsUnsupportedType` | xbmc/addons/Webinterface.cpp:51-52 | a warning is due exactly when the `@type` value is non-empty and folds to none of `"wsgi"`, `"static"`, `"html"` |
| `Webinterface.WarningsFor` | xbmc/addons/Webinterface.cpp:51-52 | reading a `@type` value emits at most one warning. It emits one exactly when `IsUnsupportedType` holds, and that warning carries the addon id and the offending value |
| `Webinterface.Log.Warn` | xbmc/addons/Webinterface.cpp:52 | emitting a warning appends exactly that event to the end of the log and changes nothing else in it |
| `Webinterface.EntryPointOf` | xbmc/addons/Webinterface.cpp:45-57 | the entry point is the `@entry` value verbatim when it is non-empty, otherwise the default; it is never empty |
| `Webinterface.WsgiInAnyCase` | xbmc/addons/Webinterface.cpp:49-50 | `@type` selects `Wsgi` if and only if it is `"wsgi"` with each letter in either case, and then no warning is emitted |
| `Webinterface.StaticSpellingsDoNotWarn` | xbmc/addons/Webinterface.cpp:44-51 | an empty `@type`, or `"static"` or `"html"` in any letter case, gives `Static` and no warning |
| `Webinterface.UnsupportedTypeWarnsOnce` | xbmc/addons/Webinterface.cpp:51-52 | any other non-empty `@type` gives `Static` and exactly one warning, which names the addon id and the offending value |
| `Webinterface.Webinterface.Create` | xbmc/addons/Webinterface.cpp:38-40 | the explicit constructor stores the given kind and entry point unchanged, and takes the id and library path from the addon |
| `Webinterface.Webinterface.FromAddon` | xbmc/addons/Webinterface.cpp:42-58 | the self-parsing constructor starts from `Static` and the default entry point. It overrides them from the addon's own `@type` and `@entry`. The result's kind and entry point are those of `KindOf` and `EntryPointOf`, the entry point is non-empty, and the log gains exactly the due warnings |
| `Webinterface.Webinterface.FromExtension` | xbmc/addons/Webinterface.cpp:19-36 | the factory reads `@type` and `@entry` from the extension configuration and builds a fresh descriptor through the explicit constructor. It gives the same kind, entry point and warnings as a function of those two values |
| `Webinterface.ConstructionPathsAgree` | xbmc/addons/Webinterface.cpp:19-58 | given equal `@type` and `@entry` values, the factory and the self-parsing constructor build descriptors with the same id, library path, kind and entry point, and append the same warnings to their logs |
| `Webinterface.Webinterface.GetEntryPoint` | xbmc/addons/Webinterface.cpp:60-66 | a `Wsgi` descriptor resolves to its library path whatever the folder is; a `Static` one resolves to the folder joined with its entry point by `AddFileToFolder` |
| `Webinterface.Webinterface.WsgiEntryPointIgnoresPath` | xbmc/addons/Webinterface.cpp:62-63 | for a `Wsgi` descriptor any two folder arguments give the same entry point, the library path |
| `Webinterface.Webinterface.GetBaseLocation` | xbmc/addons/Webinterface.cpp:68-74 | empty for `Static`. For `Wsgi` it is non-empty, consists of exactly `"/addons/"` followed by the id, and the id can be read back from it |

## Left out

- The plugin-framework lookup `GetAddonMgr().GetExtValue(ext->configuration, …)` and the variant accessor `Type(ADDON_WEB_INTERFACE)->GetValue(…).asString()` are not part of this model. Their results are the two settings maps. A missing key gives the empty string.
- `CAddon`, `ID()` and `LibPath()` belong to the addon base class, which is not part of this model. They are the `id` and `libPath` fields, copied from `AddonInfo`.
- `URIUtils::AddFileToFolder` is not part of this model. It is the parameter `addFileToFolder`, and its handling of path separators is left unspecified.
- `StringUtils::EqualsNoCase` is not part of this model. It is assumed to fold ASCII letters only, as `tolower` does in the C locale. Other locales and truncation at an embedded NUL character are not modelled.
- `WEBINTERFACE_DEFAULT_ENTRY_POINT` is defined in a header that is not part of this model. It is the constant `"index.html"`, and the proofs use only the fact that it is non-empty.
- `CLog::Log` is not part of this model. The warning's level, message text and format strings are not modelled. Each warning is an `UnsupportedType(addonId, value)` event appended to a `Log` object.
- `UnsupportedType` events model the message the code evidently intends, not its text. The two format strings disagree. `FromExtension` (line 27) uses printf-style `%s` placeholders. The self-parsing constructor (line 52) uses fmt-style `{}` placeholders: it has three and passes only two arguments, and nothing fills the leading `CWebinterface::{}`. So, whichever convention `CLog::Log` follows, at least one of the two messages cannot show both the id and the value. Under fmt-style formatting, line 52 would likely throw a format error rather than log. The self-parsing constructor might then not finish for an unsupported `@type`. `CLog` is not part of this model, so this is not settled here. The model, and `ConstructionPathsAgree`'s agreement on warnings, assume both paths log the intended event and construction completes.
- `std::unique_ptr` ownership and heap allocation in `FromExtension` are not modelled. The factory returns a fresh object.
- The accessors are `const` member functions. In the model they are functions that read the object, so they cannot change it. The model does not stop kind or entry point from being reassigned after construction. The source has no method that does this, and neither has the model.
