# LuaScriptManager script-cache path resolver, in Dafny

This project models the part of LuaViewSDK's `LuaScriptManager` that decides
where downloaded Lua scripts live on disk and which role a file plays:

- **Storage-root selection** (`StorageRoot`): `init` chooses a base directory
  and a namespace segment from the build mode, the external-storage state and
  three candidate directories. Release builds, and debug builds without mounted
  media, use the private `luaview` directory if the host provides one and the
  cache directory if not, always with the namespace `luaview`. Debug builds
  with mounted media use the external cache directory, with the real package
  name as namespace. A null context leaves the earlier choice in place.
- **Path building** (`ScriptPaths`): the layout
  `<base><ns>/script/<md5(uri)>/<md5(uri)>.lvbundle`, built from the
  namespace directory, sub-folders and file names by concatenation.
- **Bundle existence** (`ScriptPaths.ExistsScriptBundle`): false for a null or
  empty URI; otherwise whether the per-URI *folder* exists.
- **Suffixes** (`Suffixes`): the four role suffixes, the classifiers, and
  `changeSuffix`, which cuts at the last `.`.

The bundle path is injective in the digest with no assumption on digest
length. Equal paths have equal lengths, and the digest occurs in the path
between fixed text, so equal paths fix the digest's length and then the
digest itself.

`Strings` holds the string facts these rest on: prefixes, trailing matches,
`lastIndexOf`, and a split of a path into its separator-delimited segments.
That split gives an independent view of the layout: `ScriptPaths.BundleLayout`
proves that the segments of a bundle path are the root directory's segments
followed by the namespace, `script`, the digest and the bundle file name.

Environment inputs are parameters. `EncryptUtil.md5Hex` is a function
parameter `md5: string -> string`. `FileUtil.exists` is a predicate parameter
`onDisk`. `FileUtil.isSuffix` is taken to be an exact trailing match
(`Suffixes.IsSuffix`). Its source is not part of this model, so this is an
assumption of the model. The separator is Android's `/`.

## Model

| member | source | states |
|---|---|---|
| StorageRoot.InternalRoot | Android/LuaViewSDK/src/com/taobao/luaview/scriptbundle/LuaScriptManager.java:63-72 | The namespace is always `luaview`. The base is the private directory plus a separator when the host provides that directory, otherwise the cache directory plus a separator. |
| StorageRoot.SelectRoot | Android/LuaViewSDK/src/com/taobao/luaview/scriptbundle/LuaScriptManager.java:45-54 | The branch table. Debug with mounted media gives the external cache directory and the real package name. Every other case gives the private directory, or the cache directory when the private one is absent, with namespace `luaview`. The base always ends with the separator. |
| StorageRoot.Init | Android/LuaViewSDK/src/com/taobao/luaview/scriptbundle/LuaScriptManager.java:43-56 | A null context leaves the previous root state unchanged. Any other context sets the state to the selected root, whatever it held before. |
| StorageRoot.InitOverwrites | Android/LuaViewSDK/src/com/taobao/luaview/scriptbundle/LuaScriptManager.java:43-56 | A later `init` with a context overwrites an earlier one, and repeating `init` with the same context changes nothing. |
| StorageRoot.SelectRootIsFirstUsableTier | Android/LuaViewSDK/src/com/taobao/luaview/scriptbundle/LuaScriptManager.java:43-72 | The branch table equals "first usable tier wins" over the tiers external (debug and mounted only), private (when present) and cache (always). Some tier is always usable, so selection never fails. |
| Strings.LastIndexOf | Android/LuaViewSDK/src/com/taobao/luaview/scriptbundle/LuaScriptManager.java:228-229 | Returns -1 exactly when the character is absent. Otherwise it returns a position holding the character, with no occurrence after it. |
| ScriptPaths.BaseFilePath | Android/LuaViewSDK/src/com/taobao/luaview/scriptbundle/LuaScriptManager.java:81-83 | The namespace directory starts with the root base, holds the namespace next, and ends with the separator. |
| ScriptPaths.FolderPath | Android/LuaViewSDK/src/com/taobao/luaview/scriptbundle/LuaScriptManager.java:91-97 | A folder path extends the namespace directory by exactly the sub-folder name and ends with the separator. |
| ScriptPaths.FilePath | Android/LuaViewSDK/src/com/taobao/luaview/scriptbundle/LuaScriptManager.java:106-111 | A file path extends its folder path by exactly the file name. |
| ScriptPaths.BuildFileName | Android/LuaViewSDK/src/com/taobao/luaview/scriptbundle/LuaScriptManager.java:120-122 | The file name starts with the stem and ends with the suffix, and has no other characters. |
| ScriptPaths.BundleFileName | Android/LuaViewSDK/src/com/taobao/luaview/scriptbundle/LuaScriptManager.java:133-135 | The bundle file name starts with the URI's digest and is always classified as a script bundle. |
| ScriptPaths.BundleFolderPath | Android/LuaViewSDK/src/com/taobao/luaview/scriptbundle/LuaScriptManager.java:143-147 | The per-URI folder is the namespace directory, then `script`, a separator, the digest and a separator. |
| ScriptPaths.BundleFilePath | Android/LuaViewSDK/src/com/taobao/luaview/scriptbundle/LuaScriptManager.java:155-160 | The bundle file path is the per-URI folder path followed by the bundle file name, so the file sits directly in its folder. |
| ScriptPaths.BundleFolderPathInjective | Android/LuaViewSDK/src/com/taobao/luaview/scriptbundle/LuaScriptManager.java:143-147 | Equal per-URI folder paths under one root imply equal digests, with no hypothesis on digest length. |
| ScriptPaths.BundleFilePathInjective | Android/LuaViewSDK/src/com/taobao/luaview/scriptbundle/LuaScriptManager.java:155-160 | Equal bundle file paths under one root imply equal digests, with no hypothesis on digest length. |
| ScriptPaths.DistinctDigestsDistinctPaths | Android/LuaViewSDK/src/com/taobao/luaview/scriptbundle/LuaScriptManager.java:143-160 | URIs with different digests share neither a folder nor a bundle file. |
| ScriptPaths.BundleLayout | Android/LuaViewSDK/src/com/taobao/luaview/scriptbundle/LuaScriptManager.java:81-160 | Suppose the base ends with the separator and neither the namespace nor the digest contains one. Then the folder's segments are the root directory's segments, then the namespace, `script`, the digest and an empty last segment. The bundle file path has the same segments, ending in the bundle file name instead. |
| ScriptPaths.LayoutExample | Android/LuaViewSDK/src/com/taobao/luaview/scriptbundle/LuaScriptManager.java:143-160 | With base `/data/luaview/` and namespace `luaview`, the folder is `/data/luaview/luaview/script/<digest>/`. The file is that folder followed by `<digest>.lvbundle`. |
| ScriptPaths.ExistsScriptBundle | Android/LuaViewSDK/src/com/taobao/luaview/scriptbundle/LuaScriptManager.java:170-176 | A null or empty URI gives false whatever the filesystem holds. Any other URI gives true exactly when its per-URI folder exists. |
| ScriptPaths.FolderWithoutBundleFileExists | Android/LuaViewSDK/src/com/taobao/luaview/scriptbundle/LuaScriptManager.java:170-176 | An existing per-URI folder whose bundle file is missing still reports the bundle as existing. |
| ScriptPaths.ExistsScriptBundleReadsOnlyFolder | Android/LuaViewSDK/src/com/taobao/luaview/scriptbundle/LuaScriptManager.java:170-176 | The check reads the filesystem at one path only, the per-URI folder. Two filesystems that agree there give the same answer. For a null or empty URI, any two filesystems give the same answer, so nothing is read. |
| Suffixes.ClassifiersMatchBuiltNames | Android/LuaViewSDK/src/com/taobao/luaview/scriptbundle/LuaScriptManager.java:186-218 | Each of `isLuaScriptBundle`, `isLuaEncryptScript`, `isLuaScript` and `isLuaSignFile` accepts every stem followed by its suffix. Each name it accepts is its own stem followed by that suffix. |
| Suffixes.RoleSuffixesExclusive | Android/LuaViewSDK/src/com/taobao/luaview/scriptbundle/LuaScriptManager.java:28-36 | No two distinct role suffixes can both end the same name. |
| Suffixes.AtMostOneRole | Android/LuaViewSDK/src/com/taobao/luaview/scriptbundle/LuaScriptManager.java:28-36 | Every name has at most one of the four roles. The default suffix equals the encrypted-script suffix, so a name ending with it is an encrypted script. |
| Suffixes.BundleClassificationExamples | Android/LuaViewSDK/src/com/taobao/luaview/scriptbundle/LuaScriptManager.java:186-188 | `abc.lvbundle` is a bundle. `abc.lvbundlex` is not, because only an exact trailing match counts. |
| Suffixes.ChangeSuffix | Android/LuaViewSDK/src/com/taobao/luaview/scriptbundle/LuaScriptManager.java:227-232 | A null name stays null, and a name without `.` is returned unchanged with no suffix appended. Otherwise the result ends with the new suffix. What precedes that suffix is the name's prefix up to a `.` after which the name has no further `.`. |
| Suffixes.ChangeSuffixOfExtension | Android/LuaViewSDK/src/com/taobao/luaview/scriptbundle/LuaScriptManager.java:227-232 | For a name `stem.ext` whose `ext` has no `.`, the result is `stem` followed by the new suffix. |
| Suffixes.ChangeSuffixIdempotent | Android/LuaViewSDK/src/com/taobao/luaview/scriptbundle/LuaScriptManager.java:227-232 | Changing the suffix twice equals changing it once when the new suffix starts with `.` and has no other `.`. |
| ScriptPaths.SiblingFileName | Android/LuaViewSDK/src/com/taobao/luaview/scriptbundle/LuaScriptManager.java:227-232 | Changing the suffix of a URI's bundle file name gives the digest followed by the new suffix, so `.sign`, `.lv` and `.lua` siblings share the bundle's stem. |
| ScriptPaths.SiblingFilePath | Android/LuaViewSDK/src/com/taobao/luaview/scriptbundle/LuaScriptManager.java:106-111 | A sibling file named by the digest and another suffix, placed in the bundle's per-URI sub-folder, has the path of that folder followed by the digest and the suffix. |
| Suffixes.ChangeSuffixExamples | Android/LuaViewSDK/src/com/taobao/luaview/scriptbundle/LuaScriptManager.java:227-232 | `bundle.lvbundle` becomes `bundle.sign`, `noext` stays `noext`, and null stays null. |

## Left out

- Android `Context`, `Environment.getExternalStorageState()` and `LuaViewConfig.isDebug()` are replaced by the plain `StorageRoot.Env` record. `context.getDir` returning null becomes an absent `privateDir`.
- `EncryptUtil.md5Hex` is not part of this model. It is an arbitrary function parameter, so no property relies on its algorithm. Distinct URIs get distinct paths exactly when their digests differ.
- `FileUtil.exists` touches the real filesystem. It is a predicate parameter applied to the exact path string. Any path normalisation it performs, such as dropping a trailing separator, is not modelled.
- `FileUtil.isSuffix` is not part of this model. It is assumed to be an exact, case-sensitive ends-with test, and its handling of a null name is not modelled.
- Java's rendering of null as `"null"` inside string concatenation is not modelled. This affects `getBaseFilePath` before `init`, a null `getExternalCacheDir()` and a null `newSuffix` in `changeSuffix`. The path functions take an already-initialised `Root`, and suffixes are non-null strings.
- The media, log and apk suffix constants and `TAG` are unused by the modelled operations.
- Concurrent calls to `init` and reads of the static fields are not modelled. The static fields become the explicit `Option<Root>` state threaded through `StorageRoot.Init`.
