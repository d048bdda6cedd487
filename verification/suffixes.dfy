/** File-role suffixes, classification of file names by suffix, and suffix
    replacement. */
module Suffixes {
  import opened Wrappers
  import opened Strings

  const PostfixScriptBundle: string := ".lvbundle"
  /** The default cache suffix, spelled out separately from `PostfixLv`. */
  const PostfixDefault: string := ".lv"
  const PostfixLua: string := ".lua"
  /** Encrypted Lua script. */
  const PostfixLv: string := ".lv"
  const PostfixSign: string := ".sign"

  /** `FileUtil.isSuffix`, whose source is not part of this model, taken to be
      an exact, case-sensitive trailing match. */
  predicate IsSuffix(fileName: string, suffix: string) {
    EndsWith(fileName, suffix)
  }

  /** A name ending with one role suffix cannot end with a different one:
      none of the four role suffixes ends another. */
  lemma RoleSuffixesExclusive(fileName: string, a: string, b: string)
    requires a in [PostfixScriptBundle, PostfixLv, PostfixLua, PostfixSign]
    requires b in [PostfixScriptBundle, PostfixLv, PostfixLua, PostfixSign]
    requires a != b
    requires IsSuffix(fileName, a)
    ensures !IsSuffix(fileName, b)
  {
    if IsSuffix(fileName, b) {
      if |a| <= |b| {
        EndsWithNest(fileName, a, b);
      } else {
        EndsWithNest(fileName, b, a);
      }
    }
  }

  predicate IsLuaScriptBundle(fileName: string) {
    IsSuffix(fileName, PostfixScriptBundle)
  }

  /** Encrypted Lua script. */
  predicate IsLuaEncryptScript(fileName: string) {
    IsSuffix(fileName, PostfixLv)
  }

  /** Plain Lua script. */
  predicate IsLuaScript(fileName: string) {
    IsSuffix(fileName, PostfixLua)
  }

  predicate IsLuaSignFile(fileName: string) {
    IsSuffix(fileName, PostfixSign)
  }

  /** A name built from any stem and a role suffix is classified in that role,
      and a classified name is its own stem followed by the role suffix: the
      classifiers recognise exactly the names ending with their suffix. */
  lemma {:induction false} ClassifiersMatchBuiltNames(stem: string, fileName: string)
    ensures IsLuaScriptBundle(stem + PostfixScriptBundle)
    ensures IsLuaEncryptScript(stem + PostfixLv)
    ensures IsLuaScript(stem + PostfixLua)
    ensures IsLuaSignFile(stem + PostfixSign)
    ensures IsLuaScriptBundle(fileName) ==>
      fileName == fileName[..|fileName| - |PostfixScriptBundle|] + PostfixScriptBundle
    ensures IsLuaEncryptScript(fileName) ==>
      fileName == fileName[..|fileName| - |PostfixLv|] + PostfixLv
    ensures IsLuaScript(fileName) ==>
      fileName == fileName[..|fileName| - |PostfixLua|] + PostfixLua
    ensures IsLuaSignFile(fileName) ==>
      fileName == fileName[..|fileName| - |PostfixSign|] + PostfixSign
  {
    assert (stem + PostfixScriptBundle)[|stem|..] == PostfixScriptBundle;
    assert (stem + PostfixLv)[|stem|..] == PostfixLv;
    assert (stem + PostfixLua)[|stem|..] == PostfixLua;
    assert (stem + PostfixSign)[|stem|..] == PostfixSign;
  }

  /** The number of roles a file name is classified under. */
  function RoleCount(fileName: string): nat {
    (if IsLuaScriptBundle(fileName) then 1 else 0)
    + (if IsLuaEncryptScript(fileName) then 1 else 0)
    + (if IsLuaScript(fileName) then 1 else 0)
    + (if IsLuaSignFile(fileName) then 1 else 0)
  }

  /** Every file name has at most one role; the default suffix is the
      encrypted-script suffix, so a default-suffixed name is an encrypted script. */
  lemma AtMostOneRole(fileName: string)
    ensures RoleCount(fileName) <= 1
    ensures PostfixDefault == PostfixLv
    ensures IsSuffix(fileName, PostfixDefault) ==> IsLuaEncryptScript(fileName)
  {
    var roles := [PostfixScriptBundle, PostfixLv, PostfixLua, PostfixSign];
    forall a, b | a in roles && b in roles && a != b && IsSuffix(fileName, a)
      ensures !IsSuffix(fileName, b)
    {
      RoleSuffixesExclusive(fileName, a, b);
    }
  }

  /** A bundle is recognised only by an exact trailing match. */
  lemma BundleClassificationExamples()
    ensures IsLuaScriptBundle("abc.lvbundle")
    ensures !IsLuaScriptBundle("abc.lvbundlex")
  {
    assert "abc.lvbundlex"[4..] != PostfixScriptBundle;
  }

  /** `changeSuffix`: replaces everything from the last `.` on with
      `newSuffix`; a null name stays null and a name without a `.` is
      returned as it is, without the new suffix. */
  function ChangeSuffix(fileName: Option<string>, newSuffix: string): (r: Option<string>)
    ensures fileName.None? ==> r.None?
    ensures fileName.Some? && '.' !in fileName.value ==> r == fileName
    ensures fileName.Some? && '.' in fileName.value ==>
      r.Some? && EndsWith(r.value, newSuffix) &&
      var stem := r.value[..|r.value| - |newSuffix|];
      && |stem| < |fileName.value|
      && IsPrefix(stem, fileName.value)
      && fileName.value[|stem|] == '.'
      && '.' !in fileName.value[|stem| + 1..]
  {
    match fileName
    case None => None
    case Some(f) =>
      var dot := LastIndexOf(f, '.');
      if dot != -1 then Some(f[..dot] + newSuffix) else fileName
  }

  /** Splitting a name at a final extension and replacing that extension. */
  lemma ChangeSuffixOfExtension(stem: string, ext: string, newSuffix: string)
    requires '.' !in ext
    ensures ChangeSuffix(Some(stem + "." + ext), newSuffix) == Some(stem + newSuffix)
  {
    assert stem + "." + ext == stem + ("." + ext);
    assert ("." + ext)[1..] == ext;
    LastIndexOfAppend(stem, "." + ext, '.');
    assert (stem + "." + ext)[..|stem|] == stem;
  }

  /** Replacing with a suffix that is a single extension is idempotent. */
  lemma ChangeSuffixIdempotent(fileName: Option<string>, newSuffix: string)
    requires |newSuffix| > 0 && newSuffix[0] == '.' && '.' !in newSuffix[1..]
    ensures ChangeSuffix(ChangeSuffix(fileName, newSuffix), newSuffix)
            == ChangeSuffix(fileName, newSuffix)
  {
    if fileName.Some? && '.' in fileName.value {
      var r := ChangeSuffix(fileName, newSuffix).value;
      var stem := r[..|r| - |newSuffix|];
      assert r == stem + "." + newSuffix[1..];
      ChangeSuffixOfExtension(stem, newSuffix[1..], newSuffix);
    }
  }

  lemma ChangeSuffixExamples()
    ensures ChangeSuffix(Some("bundle.lvbundle"), PostfixSign) == Some("bundle.sign")
    ensures ChangeSuffix(Some("noext"), PostfixSign) == Some("noext")
    ensures ChangeSuffix(None, PostfixSign) == None
  {
    ChangeSuffixOfExtension("bundle", "lvbundle", PostfixSign);
    assert "bundle" + "." + "lvbundle" == "bundle.lvbundle";
    assert "bundle" + PostfixSign == "bundle.sign";
  }
}
