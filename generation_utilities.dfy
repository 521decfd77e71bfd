/** GenerationUtilities: the text helpers shared by both windows — wrapping
    generated code in a namespace, the source of the ScriptableObject that
    holds a sheet's data, and the full type name a job records. */
module GenerationUtilities {
  import opened Wrappers
  import opened Text
  import opened SheetData
  import opened PathUtility

  /** EnsureProjectRelative: the path, read as user input, must lie inside
      the project, and its project-relative form must start with "Assets",
      compared ignoring case; otherwise the call fails with the reason. The
      project-relative form is handed back. */
  function EnsureProjectRelative(root: string, path: string): (r: Result<string, string>)
    ensures r.Success? <==>
      ToAssetRelativeFromUserInput(root, path).Success?
      && StartsWithIgnoreCase(ToAssetRelativeFromUserInput(root, path).value, AssetsFolder)
    ensures r.Success? ==> r == ToAssetRelativeFromUserInput(root, path)
    ensures ToAssetRelativeFromUserInput(root, path).Failure? ==> r == ToAssetRelativeFromUserInput(root, path)
  {
    var relative := ToAssetRelativeFromUserInput(root, path);
    if relative.Failure? then relative
    else if !StartsWithIgnoreCase(relative.value, AssetsFolder) then Failure("Path must reside under the Assets folder.")
    else relative
  }

  /** A blank path stands for the project root, which is not inside the
      project, so it is refused. */
  lemma BlankPathRefused(root: string, path: string)
    requires IsBlank(path)
    ensures EnsureProjectRelative(root, path).Failure?
  {
    RootNotInside(root);
  }

  /** A path that starts with "Assets" in some case is not blank. */
  lemma AssetsPathNotBlank(path: string)
    requires StartsWithIgnoreCase(path, AssetsFolder)
    ensures !IsBlank(path)
  {
    assert ToLower(path[..|AssetsFolder|])[0] == ToLower(AssetsFolder)[0];
    assert !IsWhiteSpace(path[0]);
  }

  /** A normalised relative path under "Assets" is accepted as it is. */
  lemma AssetsPathAccepted(root: string, path: string)
    requires Normalize(root) == root && root != ""
    requires Normalize(path) == path && !IsRooted(path) && StartsWithIgnoreCase(path, AssetsFolder)
    ensures EnsureProjectRelative(root, path) == Success(path)
  {
    AssetsPathNotBlank(path);
    UserInputRoundTrip(root, path);
  }

  /** A path inside the project but outside "Assets" is refused. */
  lemma OutsideAssetsRefused(root: string, path: string)
    requires Normalize(root) == root && root != ""
    requires !IsBlank(path) && Normalize(path) == path && !IsRooted(path) && !StartsWithIgnoreCase(path, AssetsFolder)
    ensures EnsureProjectRelative(root, path) == Failure("Path must reside under the Assets folder.")
  {
    UserInputRoundTrip(root, path);
  }

  /** BuildAssetRelativePath: the asset file of the container class in the
      asset folder, as a project-relative path that must start with
      "Assets"; the folder is created on the way, which is not modelled. */
  function BuildAssetRelativePath(root: string, scriptableClassName: string, assetOutputPath: string)
    : (r: Result<string, string>)
    ensures r.Success? ==> StartsWithIgnoreCase(r.value, AssetsFolder) && '\\' !in r.value
  {
    var absoluteDir := ToAbsolutePath(root, assetOutputPath);
    var relative := ToAssetRelative(root, Combine(absoluteDir, scriptableClassName + ".asset"));
    if relative.Failure? then relative
    else
      var assetPath := ReplaceChar(relative.value, '\\', '/');
      if !StartsWithIgnoreCase(assetPath, AssetsFolder) then Failure("Asset paths must reside under the Assets folder.")
      else Success(assetPath)
  }

  lemma StartsWithIgnoreCaseExtend(s: string, t: string, prefix: string)
    requires StartsWithIgnoreCase(s, prefix)
    ensures StartsWithIgnoreCase(s + t, prefix)
  {
    assert (s + t)[..|prefix|] == s[..|prefix|];
  }

  /** A non-blank relative path is made absolute under the root. */
  lemma RelativeUnderRoot(root: string, path: string)
    requires Normalize(root) == root && root != ""
    requires !IsBlank(path) && !IsRooted(path)
    ensures ToAbsolutePath(root, path) == RootPrefix(root) + path
  {
    NormalizeFixedPoints(root);
  }

  /** Combining a path that does not end in '/' with a relative name puts
      one '/' between them. */
  lemma CombineRelative(first: string, second: string)
    requires first != "" && first[|first| - 1] != '/'
    requires second != "" && !IsRooted(second)
    ensures Combine(first, second) == first + "/" + second
  {
  }

  /** The asset file name of a class name without separators. */
  lemma AssetFileNameSegment(scriptableClassName: string)
    requires '/' !in scriptableClassName && '\\' !in scriptableClassName
    ensures var fileName := scriptableClassName + ".asset";
      fileName != [] && '/' !in fileName && '\\' !in fileName
  {
    var fileName := scriptableClassName + ".asset";
    forall i | 0 <= i < |fileName|
      ensures fileName[i] != '/' && fileName[i] != '\\'
    {
      if i >= |scriptableClassName| {
        assert fileName[i] == ".asset"[i - |scriptableClassName|];
      }
    }
  }

  /** The file under a relative folder, made absolute, is the root prefix
      followed by the folder, '/' and the file name. */
  lemma AbsoluteFileInFolder(root: string, folder: string, fileName: string)
    requires Normalize(root) == root && root != ""
    requires !IsBlank(folder) && Normalize(folder) == folder && !IsRooted(folder)
    requires fileName != [] && '/' !in fileName
    ensures Combine(ToAbsolutePath(root, folder), fileName) == RootPrefix(root) + (folder + "/" + fileName)
  {
    RelativeUnderRoot(root, folder);
    NormalizeFixedPoints(folder);
    var absoluteDir := RootPrefix(root) + folder;
    assert absoluteDir[|absoluteDir| - 1] == folder[|folder| - 1];
    CombineRelative(absoluteDir, fileName);
  }

  /** The asset-relative form of that file is the folder, '/' and the file
      name. */
  lemma FileInFolderRelative(root: string, folder: string, fileName: string)
    requires Normalize(folder) == folder && folder != []
    requires fileName != [] && '/' !in fileName && '\\' !in fileName
    ensures ToAssetRelative(root, RootPrefix(root) + (folder + "/" + fileName)) == Success(folder + "/" + fileName)
    ensures '\\' !in folder + "/" + fileName
  {
    AppendSegmentNormal(folder, fileName);
    AssetRelativeRoundTrip(root, folder + "/" + fileName);
  }

  /** The success case of `BuildAssetRelativePath`, from its three steps. */
  lemma AssetRelativePathSteps(root: string, scriptableClassName: string, assetOutputPath: string, relative: string)
    requires Combine(ToAbsolutePath(root, assetOutputPath), scriptableClassName + ".asset") == RootPrefix(root) + relative
    requires ToAssetRelative(root, RootPrefix(root) + relative) == Success(relative)
    requires '\\' !in relative && StartsWithIgnoreCase(relative, AssetsFolder)
    ensures BuildAssetRelativePath(root, scriptableClassName, assetOutputPath) == Success(relative)
  {
    ReplaceCharAbsent(relative, '\\', '/');
  }

  /** For an asset folder that passes the project-relative check in its
      normal form, the asset lands directly in that folder, named after the
      container class. */
  lemma AssetInOutputFolder(root: string, scriptableClassName: string, assetOutputPath: string)
    requires Normalize(root) == root && root != ""
    requires Normalize(assetOutputPath) == assetOutputPath && !IsRooted(assetOutputPath)
    requires StartsWithIgnoreCase(assetOutputPath, AssetsFolder)
    requires '/' !in scriptableClassName && '\\' !in scriptableClassName
    ensures BuildAssetRelativePath(root, scriptableClassName, assetOutputPath)
      == Success(assetOutputPath + "/" + (scriptableClassName + ".asset"))
  {
    var fileName := scriptableClassName + ".asset";
    var relative := assetOutputPath + "/" + fileName;
    assert !IsBlank(assetOutputPath) by {
      AssetsPathNotBlank(assetOutputPath);
    }
    assert fileName != [] && '/' !in fileName && '\\' !in fileName by {
      AssetFileNameSegment(scriptableClassName);
    }
    assert Combine(ToAbsolutePath(root, assetOutputPath), fileName) == RootPrefix(root) + relative by {
      AbsoluteFileInFolder(root, assetOutputPath, fileName);
    }
    assert ToAssetRelative(root, RootPrefix(root) + relative) == Success(relative) && '\\' !in relative by {
      FileInFolderRelative(root, assetOutputPath, fileName);
    }
    assert StartsWithIgnoreCase(relative, AssetsFolder) by {
      StartsWithIgnoreCaseExtend(assetOutputPath + "/", fileName, AssetsFolder) by {
        StartsWithIgnoreCaseExtend(assetOutputPath, "/", AssetsFolder);
      }
    }
    AssetRelativePathSteps(root, scriptableClassName, assetOutputPath, relative);
  }

  /** `IsNullOrEmpty(line) ? "" : "    " + line` */
  function Indent(line: string): (r: string)
    ensures line == "" ==> r == ""
    ensures line != "" ==> |r| == |line| + 4 && r[..4] == "    " && r[4..] == line
  {
    if line == "" then "" else "    " + line
  }

  /** Removes the indent `Indent` adds, if there is one. */
  function Unindent(line: string): string {
    if |line| >= 4 && line[..4] == "    " then line[4..] else line
  }

  lemma UnindentIndent(line: string)
    ensures Unindent(Indent(line)) == line
  {
  }

  /** The indented lines of a namespace body, in order. */
  function Body(lines: seq<string>): (body: seq<string>)
    ensures |body| == |lines|
    ensures forall i :: 0 <= i < |lines| ==> body[i] == Indent(lines[i])
  {
    seq(|lines|, i requires 0 <= i < |lines| => Indent(lines[i]))
  }

  lemma BodyStep(lines: seq<string>, i: nat)
    requires i < |lines|
    ensures Body(lines[..i + 1]) == Body(lines[..i]) + [Indent(lines[i])]
  {
  }

  function NamespaceHeader(namespaceName: string): seq<string> {
    ["namespace " + namespaceName, "{"]
  }

  /** The lines `WrapWithNamespace` writes for the lines of the code. */
  function WrappedLines(namespaceName: string, lines: seq<string>): seq<string> {
    NamespaceHeader(namespaceName) + Body(lines) + ["}"]
  }

  /** The wrapped lines are the input lines plus three, the header first,
      "}" last, and every input line in between in its place, indented
      when non-empty. */
  lemma WrappedShape(namespaceName: string, lines: seq<string>)
    ensures var ws := WrappedLines(namespaceName, lines);
      |ws| == |lines| + 3 && ws[0] == "namespace " + namespaceName && ws[1] == "{" && ws[|ws| - 1] == "}"
      && forall i :: 0 <= i < |lines| ==> ws[i + 2] == Indent(lines[i])
  {
  }

  /** The inverse reading: the body lines with their indent removed. */
  function Unwrap(ws: seq<string>): (lines: seq<string>)
    requires |ws| >= 3
    ensures |lines| == |ws| - 3
    ensures forall i :: 0 <= i < |ws| - 3 ==> lines[i] == Unindent(ws[i + 2])
  {
    seq(|ws| - 3, i requires 0 <= i < |ws| - 3 => Unindent(ws[i + 2]))
  }

  /** Unwrapping gives back exactly the lines that were wrapped. */
  lemma UnwrapWrapped(namespaceName: string, lines: seq<string>)
    ensures |WrappedLines(namespaceName, lines)| >= 3
    ensures Unwrap(WrappedLines(namespaceName, lines)) == lines
  {
    var ws := WrappedLines(namespaceName, lines);
    WrappedShape(namespaceName, lines);
    var back := Unwrap(ws);
    forall i | 0 <= i < |lines|
      ensures back[i] == lines[i]
    {
      UnindentIndent(lines[i]);
    }
  }

  /** The text `WrapWithNamespace` returns. */
  function Wrapped(namespaceName: string, classCode: string, nl: string): string {
    if IsBlank(namespaceName) then classCode else Lines(WrappedLines(namespaceName, SplitLines(classCode)), nl)
  }

  /** WrapWithNamespace: a blank namespace leaves the code as it is;
      otherwise the code is split into lines and written back inside a
      `namespace` block, one `AppendLine` per line. */
  method WrapWithNamespace(namespaceName: string, classCode: string, nl: string) returns (text: string)
    ensures IsBlank(namespaceName) ==> text == classCode
    ensures !IsBlank(namespaceName) ==> text == Lines(WrappedLines(namespaceName, SplitLines(classCode)), nl)
  {
    if IsBlank(namespaceName) {
      return classCode;
    }
    var lines := SplitLines(classCode);
    var header := NamespaceHeader(namespaceName);
    text := Lines(header, nl);
    assert header + Body(lines[..0]) == header;
    for i := 0 to |lines|
      invariant text == Lines(header + Body(lines[..i]), nl)
    {
      var line := Indent(lines[i]);
      BodyStep(lines, i);
      assert header + Body(lines[..i + 1]) == (header + Body(lines[..i])) + [line];
      LinesAppend(header + Body(lines[..i]), line, nl);
      text := text + line + nl;
    }
    assert lines[..|lines|] == lines;
    LinesAppend(header + Body(lines), "}", nl);
    text := text + "}" + nl;
  }

  /** Code without carriage returns splits into lines that hold no line
      break. */
  lemma {:induction false} SplitLinesAreLines(s: string)
    requires '\r' !in s
    ensures forall i :: 0 <= i < |SplitLines(s)| ==> IsLine(SplitLines(s)[i])
    decreases |s|
  {
    if s != [] {
      SplitLinesAreLines(s[1..]);
    }
  }

  lemma IndentIsLine(line: string)
    requires IsLine(line)
    ensures IsLine(Indent(line))
  {
    if line != "" {
      assert Indent(line) == "    " + line;
    }
  }

  /** Reading the wrapped text back line by line finds the namespace block:
      the line count of the code plus three, then the empty piece after the
      final line break; unwrapping it gives the code's lines. */
  lemma {:induction false} WrapReadBack(namespaceName: string, classCode: string, nl: string)
    requires nl == "\n" || nl == "\r\n"
    requires IsLine(namespaceName) && '\r' !in classCode
    ensures var lines := SplitLines(classCode);
      var back := SplitLines(Lines(WrappedLines(namespaceName, lines), nl));
      |back| == |lines| + 4 && back[|back| - 1] == ""
      && Unwrap(back[..|back| - 1]) == lines
  {
    var lines := SplitLines(classCode);
    var ws := WrappedLines(namespaceName, lines);
    SplitLinesAreLines(classCode);
    WrappedShape(namespaceName, lines);
    forall i | 0 <= i < |ws|
      ensures IsLine(ws[i])
    {
      if 2 <= i < |ws| - 1 {
        IndentIsLine(lines[i - 2]);
      } else if i == 0 {
        assert ws[0] == "namespace " + namespaceName;
      }
    }
    SplitLinesOfLines(ws, nl);
    assert (ws + [""])[..|ws|] == ws;
    UnwrapWrapped(namespaceName, lines);
  }

  /** The lines of the ScriptableObject container class that holds a sheet's
      data; `dataNamespace` is the namespace of the data class when it
      differs from the container's. */
  function ScriptableObjectLines(dataClassName: string, scriptableClassName: string, sheetType: SheetDataType,
                                 dataNamespace: string): seq<string>
  {
    (if IsBlank(dataNamespace) then [] else ["using " + dataNamespace + ";"])
    + (if sheetType == Table then ["using System.Collections.Generic;"] else [])
    + ["using UnityEngine;", "", "public class " + scriptableClassName + " : ScriptableObject", "{"]
    + ValueMembers(dataClassName, sheetType)
    + [""]
    + (if sheetType == Const then SetValueLines(dataClassName) else [])
    + ["}"]
  }

  /** The member that holds the data: a public list for a table sheet, a
      private record with a read-only accessor for a const sheet. */
  function ValueMembers(dataClassName: string, sheetType: SheetDataType): seq<string> {
    if sheetType == Table then
      ["    public List<" + dataClassName + "> Values = new List<" + dataClassName + ">();"]
    else
      ["    [SerializeField] private " + dataClassName + " value = new " + dataClassName + "();",
       "    public " + dataClassName + " Value => value;"]
  }

  function SetValueLines(dataClassName: string): seq<string> {
    ["    public void SetValue(" + dataClassName + " newValue)", "    {", "        value = newValue;", "    }"]
  }

  /** GenerateScriptableObjectClass of the shared utilities: one
      `AppendLine` per line. */
  function GenerateScriptableObjectClass(dataClassName: string, scriptableClassName: string, sheetType: SheetDataType,
                                         dataNamespace: string, nl: string): string
  {
    Lines(ScriptableObjectLines(dataClassName, scriptableClassName, sheetType, dataNamespace), nl)
  }

  /** The using of the data namespace comes first, and only when that
      namespace is not blank; the generic-collections using follows only for
      a table sheet; the class closes with "}". */
  lemma ScriptableObjectShape(dataClassName: string, scriptableClassName: string, sheetType: SheetDataType,
                              dataNamespace: string)
    ensures var ls := ScriptableObjectLines(dataClassName, scriptableClassName, sheetType, dataNamespace);
      var u := if IsBlank(dataNamespace) then 0 else 1;
      (!IsBlank(dataNamespace) ==> ls[0] == "using " + dataNamespace + ";")
      && (sheetType == Table <==> ls[u] == "using System.Collections.Generic;")
      && ls[u + (if sheetType == Table then 1 else 0)] == "using UnityEngine;"
      && ls[|ls| - 1] == "}"
  {
  }

  /** After the usings and the class header comes the data member: the
      `Values` list for a table sheet, which ends the class with a blank
      line and "}"; for a const sheet the private `value` field and the
      `Value` accessor, then a blank line, `SetValue` and "}". */
  lemma ScriptableObjectMembers(dataClassName: string, scriptableClassName: string, sheetType: SheetDataType,
                                dataNamespace: string)
    ensures var ls := ScriptableObjectLines(dataClassName, scriptableClassName, sheetType, dataNamespace);
      var k := (if IsBlank(dataNamespace) then 0 else 1) + (if sheetType == Table then 1 else 0) + 4;
      ls[k - 2] == "public class " + scriptableClassName + " : ScriptableObject"
      && (sheetType == Table ==>
            |ls| == k + 3
            && ls[k] == "    public List<" + dataClassName + "> Values = new List<" + dataClassName + ">();")
      && (sheetType == Const ==>
            |ls| == k + 8
            && ls[k] == "    [SerializeField] private " + dataClassName + " value = new " + dataClassName + "();"
            && ls[k + 1] == "    public " + dataClassName + " Value => value;"
            && ls[k + 3] == "    public void SetValue(" + dataClassName + " newValue)")
  {
  }

  /** BuildFullName: the class name alone under a blank namespace,
      otherwise qualified by the namespace. */
  function BuildFullName(namespaceName: string, className: string): (r: string)
    ensures IsBlank(namespaceName) ==> r == className
    ensures !IsBlank(namespaceName) ==>
      (|r| == |namespaceName| + 1 + |className|
       && r[..|namespaceName|] == namespaceName && r[|namespaceName|] == '.' && r[|namespaceName| + 1..] == className)
  {
    if IsBlank(namespaceName) then className else namespaceName + "." + className
  }
}
