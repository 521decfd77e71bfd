/** PathUtility: the path strings the windows and settings derive from the
    project root. The root is a parameter; `Path.GetFullPath` is the
    identity, which it is on the canonical absolute paths the editor hands
    around; `Path.Combine` is the Unix one, with '/' as separator. */
module PathUtility {
  import opened Wrappers
  import opened Text

  /** `Path.IsPathRooted` on Unix. */
  predicate IsRooted(path: string) {
    |path| > 0 && path[0] == '/'
  }

  /** `Path.Combine(first, second)`: a rooted or empty second part wins or
      is dropped, and a separator is put between the two unless the first
      already ends with one. */
  function Combine(first: string, second: string): (r: string)
    ensures second == "" ==> r == first
    ensures second != "" && (first == "" || IsRooted(second)) ==> r == second
    ensures second != "" && first != "" && !IsRooted(second) ==> EndsWith(r, second) && StartsWith(r, first)
  {
    if second == "" then first
    else if first == "" || IsRooted(second) then second
    else if first[|first| - 1] == '/' then first + second
    else first + "/" + second
  }

  /** Normalize: back slashes become forward slashes and trailing slashes
      go. */
  function Normalize(path: string): (r: string)
    ensures '\\' !in r
    ensures r == [] || r[|r| - 1] != '/'
    ensures |r| <= |path|
  {
    TrimEndChar(ReplaceChar(path, '\\', '/'), '/')
  }

  /** A normalised path is left as it is by a second normalisation. */
  lemma NormalizeIdempotent(path: string)
    ensures Normalize(Normalize(path)) == Normalize(path)
  {
    var n := Normalize(path);
    ReplaceCharAbsent(n, '\\', '/');
  }

  lemma ReplaceCharAbsent(s: string, from: char, to: char)
    requires from !in s
    ensures ReplaceChar(s, from, to) == s
  {
  }

  /** A path is normalised exactly when it has no back slash and does not
      end in '/'. */
  lemma NormalizeFixedPoints(path: string)
    ensures Normalize(path) == path <==> '\\' !in path && (path == [] || path[|path| - 1] != '/')
  {
    if '\\' !in path && (path == [] || path[|path| - 1] != '/') {
      ReplaceCharAbsent(path, '\\', '/');
    }
  }

  /** ToAbsolutePath: the project root for a blank path, a rooted path as
      it is, and anything else under the root. */
  function ToAbsolutePath(root: string, path: string): (r: string)
    ensures IsBlank(path) ==> r == root
    ensures !IsBlank(path) && IsRooted(path) ==> r == path
    ensures !IsBlank(path) && !IsRooted(path) ==> r == Combine(root, path)
    ensures !IsBlank(path) ==> r != ""
  {
    if IsBlank(path) then root
    else if IsRooted(path) then path
    else Combine(root, path)
  }

  /** The prefix every path inside the project starts with. */
  function RootPrefix(root: string): string {
    Normalize(root) + "/"
  }

  /** ToAssetRelative: the part of the normalised path after the
      normalised root and a '/', compared ignoring case; a path outside the
      project, or the root itself, fails. */
  function ToAssetRelative(root: string, absolutePath: string): (r: Result<string, string>)
    ensures r.Success? <==> StartsWithIgnoreCase(Normalize(absolutePath), RootPrefix(root))
    ensures r.Success? ==> Normalize(absolutePath) == Normalize(absolutePath)[..|RootPrefix(root)|] + r.value
    ensures r.Success? ==> '\\' !in r.value
  {
    var prefix := RootPrefix(root);
    var normalized := Normalize(absolutePath);
    if !StartsWithIgnoreCase(normalized, prefix) then Failure("Path must reside inside the Unity project.")
    else Success(normalized[|prefix|..])
  }

  /** The project root itself is not inside the project. */
  lemma RootNotInside(root: string)
    ensures ToAssetRelative(root, root).Failure?
  {
  }

  /** A normalised relative path appended to the root comes back out. */
  lemma AssetRelativeRoundTrip(root: string, relative: string)
    requires relative != [] && Normalize(relative) == relative
    ensures ToAssetRelative(root, RootPrefix(root) + relative) == Success(relative)
  {
    var prefix := RootPrefix(root);
    NormalizeFixedPoints(relative);
    NormalizeFixedPoints(Normalize(root));
    NormalizeIdempotent(root);
    assert '\\' !in prefix;
    ReplaceCharAbsent(prefix + relative, '\\', '/');
    assert Normalize(prefix + relative) == prefix + relative;
    assert (prefix + relative)[..|prefix|] == prefix;
  }

  /** ToAssetRelativeFromUserInput */
  function ToAssetRelativeFromUserInput(root: string, userInput: string): Result<string, string> {
    ToAssetRelative(root, ToAbsolutePath(root, userInput))
  }

  /** A relative user path below the root reads back as itself. */
  lemma UserInputRoundTrip(root: string, relative: string)
    requires Normalize(root) == root && root != ""
    requires !IsBlank(relative) && Normalize(relative) == relative && !IsRooted(relative)
    ensures ToAssetRelativeFromUserInput(root, relative) == Success(relative)
  {
    assert Combine(root, relative) == RootPrefix(root) + relative;
    AssetRelativeRoundTrip(root, relative);
  }

  /** GetAbsoluteFromAssetPath */
  function GetAbsoluteFromAssetPath(root: string, assetRelativePath: string): (r: string)
    ensures assetRelativePath != "" && !IsRooted(assetRelativePath) && Normalize(root) == root && root != "" ==>
      r == RootPrefix(root) + assetRelativePath
  {
    Combine(root, assetRelativePath)
  }

  /** The absolute path of an asset-relative path is inside the project
      and maps back to it. */
  lemma AbsoluteFromAssetRoundTrip(root: string, relative: string)
    requires Normalize(root) == root && root != ""
    requires relative != [] && Normalize(relative) == relative && !IsRooted(relative)
    ensures ToAssetRelative(root, GetAbsoluteFromAssetPath(root, relative)) == Success(relative)
  {
    AssetRelativeRoundTrip(root, relative);
  }

  const TokenFolderName: string := "GSheetToData"

  /** The folder every asset path starts with. */
  const AssetsFolder: string := "Assets"

  /** The token folder under the project's Temp folder. */
  function DefaultTokenStoreDirectory(root: string): string {
    Combine(Combine(root, "Temp"), TokenFolderName)
  }

  /** GetTempRelativePath: a path inside the project's Temp folder as
      "Temp/" and the rest; any other path as it was given. */
  function GetTempRelativePath(root: string, absolutePath: string): (r: string)
    ensures !StartsWithIgnoreCase(Normalize(absolutePath), RootPrefix(Combine(root, "Temp"))) ==> r == absolutePath
    ensures StartsWithIgnoreCase(Normalize(absolutePath), RootPrefix(Combine(root, "Temp"))) ==>
      StartsWith(r, "Temp/")
      && r[5..] == Normalize(absolutePath)[|RootPrefix(Combine(root, "Temp"))|..]
  {
    var prefix := RootPrefix(Combine(root, "Temp"));
    var normalized := Normalize(absolutePath);
    if !StartsWithIgnoreCase(normalized, prefix) then absolutePath
    else "Temp/" + normalized[|prefix|..]
  }

  /** The Temp-relative reading is the asset-relative reading against the
      Temp folder, prefixed with "Temp/", or the path itself when that
      fails. */
  lemma TempRelativeIsAssetRelative(root: string, absolutePath: string)
    ensures var inTemp := ToAssetRelative(Combine(root, "Temp"), absolutePath);
      GetTempRelativePath(root, absolutePath)
      == if inTemp.Success? then "Temp/" + inTemp.value else absolutePath
  {
  }

  /** Appending a segment free of slashes to a normalised path keeps it
      normalised. */
  lemma AppendSegmentNormal(path: string, segment: string)
    requires Normalize(path) == path
    requires segment != [] && '\\' !in segment && '/' !in segment
    ensures Normalize(path + "/" + segment) == path + "/" + segment
  {
    NormalizeFixedPoints(path);
    var r := path + "/" + segment;
    assert r[|r| - 1] == segment[|segment| - 1];
    NormalizeFixedPoints(r);
  }

  /** A folder directly under the project's Temp folder shows as
      "Temp/" and its name. */
  lemma TempSubfolder(root: string, segment: string)
    requires Normalize(root) == root && root != ""
    requires segment != [] && '\\' !in segment && '/' !in segment
    ensures GetTempRelativePath(root, Combine(Combine(root, "Temp"), segment)) == "Temp/" + segment
  {
    var temp := Combine(root, "Temp");
    assert temp == root + "/" + "Temp";
    AppendSegmentNormal(root, "Temp");
    assert Combine(temp, segment) == RootPrefix(temp) + segment;
    NormalizeFixedPoints(segment);
    AssetRelativeRoundTrip(temp, segment);
    TempRelativeIsAssetRelative(root, Combine(temp, segment));
  }

  /** The default token folder shows as "Temp/GSheetToData". */
  lemma DefaultTokenStoreInTemp(root: string)
    requires Normalize(root) == root && root != ""
    ensures GetTempRelativePath(root, DefaultTokenStoreDirectory(root)) == "Temp/" + TokenFolderName
  {
    TempSubfolder(root, TokenFolderName);
  }

  /** The file system, reduced to the set of directories that exist. */
  class FileSystem {
    var directories: set<string>

    constructor (directories: set<string>)
      ensures this.directories == directories
    {
      this.directories := directories;
    }

    /** EnsureDirectory: creates the directory if it is missing and hands
        its argument back. */
    method EnsureDirectory(absolutePath: string) returns (r: string)
      modifies this
      ensures r == absolutePath
      ensures directories == old(directories) + {absolutePath}
    {
      if absolutePath !in directories {
        directories := directories + {absolutePath};
      }
      return absolutePath;
    }

    /** GetDefaultTokenStorePath: the Temp/GSheetToData folder of the
        project, created if missing. */
    method GetDefaultTokenStorePath(root: string) returns (r: string)
      modifies this
      ensures r == DefaultTokenStoreDirectory(root)
      ensures directories == old(directories) + {r}
    {
      r := EnsureDirectory(DefaultTokenStoreDirectory(root));
    }
  }
}
