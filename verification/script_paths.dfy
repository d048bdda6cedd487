/** Path building under the resolved root, following the on-disk layout
    `<base><ns>/script/<md5(uri)>/<md5(uri)>.lvbundle`, and the bundle
    existence check. The digest (`EncryptUtil.md5Hex`) and the filesystem
    test (`FileUtil.exists`) are parameters. */
module ScriptPaths {
  import opened Wrappers
  import opened Strings
  import opened StorageRoot
  import opened Suffixes

  const FolderScript: string := "script"

  /** The namespace directory: the root, the namespace, a separator. */
  function BaseFilePath(root: Root): (r: string)
    ensures |r| == |root.base| + |root.ns| + 1
    ensures IsPrefix(root.base, r) && EndsWith(r, Separator)
    ensures r[|root.base|..|r| - 1] == root.ns
  {
    root.base + root.ns + Separator
  }

  /** A sub-folder directly under the namespace directory. */
  function FolderPath(root: Root, subFolderName: string): (r: string)
    ensures |r| == |BaseFilePath(root)| + |subFolderName| + 1
    ensures IsPrefix(BaseFilePath(root), r) && EndsWith(r, Separator)
    ensures r[|BaseFilePath(root)|..|r| - 1] == subFolderName
  {
    BaseFilePath(root) + subFolderName + Separator
  }

  /** A file directly inside a sub-folder. */
  function FilePath(root: Root, subFolderName: string, fileNameWithPostfix: string): (r: string)
    ensures IsPrefix(FolderPath(root, subFolderName), r)
    ensures r[|FolderPath(root, subFolderName)|..] == fileNameWithPostfix
  {
    FolderPath(root, subFolderName) + fileNameWithPostfix
  }

  /** A name and a dotted suffix, with no validation of either. */
  function BuildFileName(nameWithoutPostfix: string, postfixWithDot: string): (r: string)
    ensures IsPrefix(nameWithoutPostfix, r) && EndsWith(r, postfixWithDot)
    ensures |r| == |nameWithoutPostfix| + |postfixWithDot|
  {
    nameWithoutPostfix + postfixWithDot
  }

  /** The per-URI folder relative to the namespace directory: `script/<md5(uri)>`. */
  function BundleSubFolder(md5: string -> string, uri: string): string {
    FolderScript + Separator + md5(uri)
  }

  /** The bundle's file name: its digest with the bundle suffix, which the
      classifier always recognises as a bundle. */
  function BundleFileName(md5: string -> string, uri: string): (r: string)
    ensures IsLuaScriptBundle(r)
    ensures |r| == |md5(uri)| + |PostfixScriptBundle| && r[..|md5(uri)|] == md5(uri)
  {
    BuildFileName(md5(uri), PostfixScriptBundle)
  }

  /** Replacing the suffix of a bundle file name gives the sibling file name
      of the same URI (signature, encrypted or plain script). */
  lemma SiblingFileName(md5: string -> string, uri: string, newSuffix: string)
    ensures ChangeSuffix(Some(BundleFileName(md5, uri)), newSuffix)
            == Some(BuildFileName(md5(uri), newSuffix))
  {
    assert BundleFileName(md5, uri) == md5(uri) + "." + "lvbundle";
    ChangeSuffixOfExtension(md5(uri), "lvbundle", newSuffix);
  }

  /** The sibling file of a URI with suffix `newSuffix` (signature,
      encrypted or plain script), placed in the bundle's per-URI folder the
      way `getFilePath` places any file, is that folder followed by the
      digest and the suffix. */
  lemma SiblingFilePath(root: Root, md5: string -> string, uri: string, newSuffix: string)
    ensures FilePath(root, BundleSubFolder(md5, uri), BuildFileName(md5(uri), newSuffix))
            == BundleFolderPath(root, md5, uri) + md5(uri) + newSuffix
  {
  }

  /** The per-URI folder, named after the digest of the URI. */
  function BundleFolderPath(root: Root, md5: string -> string, uri: string): (r: string)
    ensures r == BaseFilePath(root) + FolderScript + Separator + md5(uri) + Separator
  {
    FolderPath(root, BundleSubFolder(md5, uri))
  }

  /** The bundle file, directly inside its per-URI folder. */
  function BundleFilePath(root: Root, md5: string -> string, uri: string): (r: string)
    ensures r == BundleFolderPath(root, md5, uri) + BundleFileName(md5, uri)
  {
    FilePath(root, BundleSubFolder(md5, uri), BuildFileName(md5(uri), PostfixScriptBundle))
  }

  /** `existsScriptBundle`: false for a null or empty URI, without asking the
      filesystem; otherwise whether the per-URI folder (not the bundle file)
      exists. */
  function ExistsScriptBundle(root: Root, md5: string -> string, onDisk: string -> bool,
                              uri: Option<string>): (r: bool)
    ensures uri.None? || uri == Some("") ==> !r
    ensures uri.Some? && uri.value != "" ==> (r <==> onDisk(BundleFolderPath(root, md5, uri.value)))
  {
    match uri
    case None => false
    case Some(u) => if |u| == 0 then false else onDisk(BundleFolderPath(root, md5, u))
  }

  /** An existing per-URI folder is reported as a bundle even when the bundle
      file itself is missing. */
  lemma FolderWithoutBundleFileExists(root: Root, md5: string -> string, onDisk: string -> bool,
                                      uri: string)
    requires uri != ""
    requires onDisk(BundleFolderPath(root, md5, uri)) && !onDisk(BundleFilePath(root, md5, uri))
    ensures ExistsScriptBundle(root, md5, onDisk, Some(uri))
  {
  }

  /** Only the per-URI folder is consulted: two filesystems that agree on
      that one path give the same answer, and a null or empty URI consults
      nothing at all. */
  lemma ExistsScriptBundleReadsOnlyFolder(root: Root, md5: string -> string,
                                          onDisk1: string -> bool, onDisk2: string -> bool,
                                          uri: Option<string>)
    requires uri.Some? && uri.value != "" ==>
      onDisk1(BundleFolderPath(root, md5, uri.value)) == onDisk2(BundleFolderPath(root, md5, uri.value))
    ensures ExistsScriptBundle(root, md5, onDisk1, uri) == ExistsScriptBundle(root, md5, onDisk2, uri)
  {
  }

  /** Equal per-URI folders have equal digests, whatever their lengths. */
  lemma BundleFolderPathInjective(root: Root, md5: string -> string, u1: string, u2: string)
    requires BundleFolderPath(root, md5, u1) == BundleFolderPath(root, md5, u2)
    ensures md5(u1) == md5(u2)
  {
    var p := BaseFilePath(root) + FolderScript + Separator;
    var f1 := BundleFolderPath(root, md5, u1);
    assert f1 == p + (md5(u1) + Separator);
    assert f1 == p + (md5(u2) + Separator);
    assert md5(u1) == f1[|p|..|f1| - 1];
  }

  /** Equal bundle file paths have equal digests, whatever their lengths: the
      digest occurs twice around fixed text, so the length fixes its size. */
  lemma BundleFilePathInjective(root: Root, md5: string -> string, u1: string, u2: string)
    requires BundleFilePath(root, md5, u1) == BundleFilePath(root, md5, u2)
    ensures md5(u1) == md5(u2)
  {
    var p := BaseFilePath(root) + FolderScript + Separator;
    BundleFilePathShape(root, md5, u1);
    BundleFilePathShape(root, md5, u2);
    DigestTwiceInjective(p, Separator, PostfixScriptBundle, md5(u1), md5(u2));
  }

  lemma BundleFilePathShape(root: Root, md5: string -> string, uri: string)
    ensures BundleFilePath(root, md5, uri)
            == BaseFilePath(root) + FolderScript + Separator + md5(uri) + Separator
               + md5(uri) + PostfixScriptBundle
  {
  }

  /** A string in which one unknown part occurs twice around fixed text
      determines that part. */
  lemma DigestTwiceInjective(p: string, q: string, s: string, d1: string, d2: string)
    requires p + d1 + q + d1 + s == p + d2 + q + d2 + s
    ensures d1 == d2
  {
    var f := p + d1 + q + d1 + s;
    assert |d1| == |d2|;
    assert f[|p|..|p| + |d1|] == d1;
    assert (p + d2 + q + d2 + s)[|p|..|p| + |d2|] == d2;
  }

  /** URIs with different digests never share a folder or a bundle file. */
  lemma DistinctDigestsDistinctPaths(root: Root, md5: string -> string, u1: string, u2: string)
    requires md5(u1) != md5(u2)
    ensures BundleFolderPath(root, md5, u1) != BundleFolderPath(root, md5, u2)
    ensures BundleFilePath(root, md5, u1) != BundleFilePath(root, md5, u2)
  {
    if BundleFolderPath(root, md5, u1) == BundleFolderPath(root, md5, u2) {
      BundleFolderPathInjective(root, md5, u1, u2);
    }
    if BundleFilePath(root, md5, u1) == BundleFilePath(root, md5, u2) {
      BundleFilePathInjective(root, md5, u1, u2);
    }
  }

  /** The segment view of the layout: below the root directory come the
      namespace, `script`, the digest, and then either nothing (the folder
      ends with a separator) or the bundle file name. */
  lemma {:induction false} BundleLayout(root: Root, md5: string -> string, uri: string)
    requires EndsWith(root.base, Separator)
    requires SeparatorChar !in root.ns && SeparatorChar !in md5(uri)
    ensures var dir := root.base[..|root.base| - 1];
      Split(BundleFolderPath(root, md5, uri))
        == Split(dir) + [root.ns, FolderScript, md5(uri), ""]
    ensures var dir := root.base[..|root.base| - 1];
      Split(BundleFilePath(root, md5, uri))
        == Split(dir) + [root.ns, FolderScript, md5(uri), BundleFileName(md5, uri)]
  {
    var dir := root.base[..|root.base| - 1];
    var d := md5(uri);
    var name := BundleFileName(md5, uri);
    assert root.base == dir + Separator;
    assert SeparatorChar !in name by {
      assert name == d + PostfixScriptBundle;
    }
    assert BundleFolderPath(root, md5, uri) == dir + Separator + NamespaceTail(root.ns, d, "");
    assert BundleFilePath(root, md5, uri) == dir + Separator + NamespaceTail(root.ns, d, name);
    SplitLayout(dir, root.ns, d, "");
    SplitLayout(dir, root.ns, d, name);
  }

  lemma SplitLayout(dir: string, ns: string, d: string, last: string)
    requires SeparatorChar !in ns && SeparatorChar !in d && SeparatorChar !in last
    ensures Split(dir + Separator + NamespaceTail(ns, d, last)) == Split(dir) + [ns, FolderScript, d, last]
  {
    SplitJoin(dir, NamespaceTail(ns, d, last));
    SplitTail(ns, d, last);
  }

  /** `<ns>/script/<digest>/<last>`. */
  function NamespaceTail(ns: string, d: string, last: string): string {
    ns + Separator + (FolderScript + Separator + (d + Separator + last))
  }

  lemma SplitTail(ns: string, d: string, last: string)
    requires SeparatorChar !in ns && SeparatorChar !in d && SeparatorChar !in last
    ensures Split(NamespaceTail(ns, d, last)) == [ns, FolderScript, d, last]
  {
    SplitSegment(ns);
    SplitSegment(FolderScript);
    SplitSegment(d);
    SplitSegment(last);
    SplitJoin(d, last);
    SplitJoin(FolderScript, d + Separator + last);
    SplitJoin(ns, FolderScript + Separator + (d + Separator + last));
  }

  /** The worked example: root `/data/luaview/`, namespace `luaview`, and a
      URI whose digest is any string `digest`. */
  lemma LayoutExample(md5: string -> string, uri: string, digest: string)
    requires md5(uri) == digest
    ensures BundleFolderPath(Root("/data/luaview/", "luaview"), md5, uri)
            == "/data/luaview/luaview/script/" + digest + "/"
    ensures BundleFilePath(Root("/data/luaview/", "luaview"), md5, uri)
            == "/data/luaview/luaview/script/" + digest + "/" + digest + ".lvbundle"
  {
    assert BaseFilePath(Root("/data/luaview/", "luaview")) + FolderScript + Separator
           == "/data/luaview/luaview/script/";
  }
}
