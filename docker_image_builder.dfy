/**
 * The string and path work of the Docker image builder for script
 * operations: the plan of files copied into the build directory, the
 * stringified script parameters, the build-arguments JSON and the image tag.
 * The Docker daemon and the file system are not modelled: file copies are
 * recorded as the (file name, destination, location) triples that would be
 * copied, and the build is recorded as the request that would be sent.
 */
module DockerImageBuilding {
  import opened Wrappers

  /** One copy of a file from the classpath location into the build directory. */
  datatype Copy = Copy(fileName: string, destination: string, location: string)

  /** What getFiles throws: indexing the empty array that splitting an all-'/' path gives. */
  datatype Failure = ArrayIndexOutOfBounds(index: int)

  const DefaultDockerfile: string := "Dockerfile"
  const DefaultDockerfileLocation: string := "/.ScriptBin/default/"
  const ScriptBinLocation: string := "/.ScriptBin/"
  const SupportFiles: seq<string> := ["DataInputStream.py", "entrypoint.py", "modules.txt"]
  const ImageTagPrefix: string := "scriptoperation:"

  /** Joins pieces with '/' between them: the inverse of splitting on '/'. */
  function Join(pieces: seq<string>): string
    requires |pieces| >= 1
  {
    if |pieces| == 1 then pieces[0]
    else Join(pieces[..|pieces| - 1]) + "/" + pieces[|pieces| - 1]
  }

  /** Every '/'-separated piece of s, empty ones included. */
  function Pieces(s: string): (r: seq<string>)
    ensures |r| >= 1
    ensures s != [] && s[|s| - 1] != '/' ==> r[|r| - 1] != []
  {
    if s == [] then [[]]
    else
      var init := Pieces(s[..|s| - 1]);
      var c := s[|s| - 1];
      if c == '/' then init + [[]]
      else init[..|init| - 1] + [init[|init| - 1] + [c]]
  }

  /** No piece holds a '/', and none is longer than the string. */
  lemma {:induction false} PiecesShape(s: string)
    ensures forall i :: 0 <= i < |Pieces(s)| ==> '/' !in Pieces(s)[i] && |Pieces(s)[i]| <= |s|
  {
    if s != [] {
      var n := |s| - 1;
      PiecesShape(s[..n]);
      var init := Pieces(s[..n]);
      var r := Pieces(s);
      if s[n] != '/' {
        var k := |init| - 1;
        assert r == init[..k] + [init[k] + [s[n]]];
        assert '/' !in init[k] + [s[n]];
      }
    }
  }

  /** A new empty last piece adds a '/' to the joined string. */
  lemma {:induction false} JoinEmptyLast(pieces: seq<string>)
    requires |pieces| >= 1
    ensures Join(pieces + [[]]) == Join(pieces) + "/"
  {
    assert (pieces + [[]])[..|pieces|] == pieces;
  }

  /** A character added to the last piece is added to the joined string. */
  lemma {:induction false} JoinExtendLast(pieces: seq<string>, c: char)
    requires |pieces| >= 1
    ensures var k := |pieces| - 1;
      Join(pieces[..k] + [pieces[k] + [c]]) == Join(pieces) + [c]
  {
    var k := |pieces| - 1;
    var longer := pieces[..k] + [pieces[k] + [c]];
    if k > 0 {
      assert longer[..k] == pieces[..k] && longer[k] == pieces[k] + [c];
      var front := Join(pieces[..k]) + "/";
      assert Join(longer) == front + (pieces[k] + [c]);
      assert Join(pieces) == front + pieces[k];
      assert front + (pieces[k] + [c]) == front + pieces[k] + [c];
    } else {
      assert longer == [pieces[0] + [c]];
    }
  }

  /** Splitting on '/' loses nothing: joining the pieces gives the string back. */
  lemma {:induction false} JoinPieces(s: string)
    ensures Join(Pieces(s)) == s
  {
    if s != [] {
      var n := |s| - 1;
      JoinPieces(s[..n]);
      if s[n] == '/' {
        JoinEmptyLast(Pieces(s[..n]));
      } else {
        JoinExtendLast(Pieces(s[..n]), s[n]);
      }
      assert s == s[..n] + [s[n]];
    }
  }

  /** Drops the empty strings at the end, as Java's String.split does. */
  function DropTrailingEmpty(pieces: seq<string>): (r: seq<string>)
    ensures |r| <= |pieces| && r == pieces[..|r|]
    ensures r != [] ==> r[|r| - 1] != []
    ensures forall i :: |r| <= i < |pieces| ==> pieces[i] == []
  {
    if pieces == [] then []
    else if pieces[|pieces| - 1] == [] then DropTrailingEmpty(pieces[..|pieces| - 1])
    else pieces
  }

  /** Java's `s.split("/")`: no '/' gives [s]; otherwise the pieces without trailing empty ones. */
  function JavaSplit(s: string): (r: seq<string>)
    ensures forall i :: 0 <= i < |r| ==> '/' !in r[i] && |r[i]| <= |s|
  {
    PiecesShape(s);
    if '/' !in s then [s] else DropTrailingEmpty(Pieces(s))
  }

  /** The copy getFiles makes of the Dockerfile: the default one, or the last segment of the given path. */
  function DockerfileCopy(pathToBuildFiles: string, dockerfilePath: string): (r: Result<Copy, Failure>)
    ensures r.Ok? ==> r.value.destination == pathToBuildFiles
    ensures dockerfilePath == "" ==> r == Ok(Copy(DefaultDockerfile, pathToBuildFiles, DefaultDockerfileLocation))
  {
    if dockerfilePath == "" then Ok(Copy(DefaultDockerfile, pathToBuildFiles, DefaultDockerfileLocation))
    else
      var pathSplit := JavaSplit(dockerfilePath);
      if pathSplit == [] then Err(ArrayIndexOutOfBounds(-1))
      else
        var fileName := pathSplit[|pathSplit| - 1];
        Ok(Copy(fileName, pathToBuildFiles, dockerfilePath[..|dockerfilePath| - |fileName|]))
  }

  /** The support files getFiles copies after the Dockerfile, in order. */
  function SupportCopies(pathToBuildFiles: string): (r: seq<Copy>)
    ensures |r| == |SupportFiles|
    ensures forall i :: 0 <= i < |r| ==> r[i] == Copy(SupportFiles[i], pathToBuildFiles, ScriptBinLocation)
  {
    seq(|SupportFiles|, i requires 0 <= i < |SupportFiles| => Copy(SupportFiles[i], pathToBuildFiles, ScriptBinLocation))
  }

  /** Every copy getFiles makes, or the exception it throws before copying anything. */
  function CopyPlan(pathToBuildFiles: string, dockerfilePath: string): (r: Result<seq<Copy>, Failure>)
    ensures r.Err? <==> DockerfileCopy(pathToBuildFiles, dockerfilePath).Err?
    ensures r.Ok? ==> |r.value| == 1 + |SupportFiles| && Ok(r.value[0]) == DockerfileCopy(pathToBuildFiles, dockerfilePath)
                      && r.value[1..] == SupportCopies(pathToBuildFiles)
  {
    match DockerfileCopy(pathToBuildFiles, dockerfilePath)
    case Ok(dockerfile) => Ok([dockerfile] + SupportCopies(pathToBuildFiles))
    case Err(e) => Err(e)
  }

  /** Every copy of the plan goes into the build directory. */
  lemma {:induction false} PlanTargetsBuildDirectory(pathToBuildFiles: string, dockerfilePath: string)
    requires CopyPlan(pathToBuildFiles, dockerfilePath).Ok?
    ensures var plan := CopyPlan(pathToBuildFiles, dockerfilePath).value;
      forall i :: 0 <= i < |plan| ==> plan[i].destination == pathToBuildFiles
  {
    var plan := CopyPlan(pathToBuildFiles, dockerfilePath).value;
    forall i | 0 <= i < |plan|
      ensures plan[i].destination == pathToBuildFiles
    {
      if i > 0 {
        assert plan[i] == plan[1..][i - 1];
      }
    }
  }

  /** Whether s consists of '/' characters only (the empty string included). */
  predicate AllSlashes(s: string)
  {
    forall i :: 0 <= i < |s| ==> s[i] == '/'
  }

  /** With no Dockerfile path, the default Dockerfile and then the three support files are copied. */
  lemma {:induction false} DefaultPlan(pathToBuildFiles: string)
    ensures CopyPlan(pathToBuildFiles, "") == Ok([
      Copy("Dockerfile", pathToBuildFiles, "/.ScriptBin/default/"),
      Copy("DataInputStream.py", pathToBuildFiles, "/.ScriptBin/"),
      Copy("entrypoint.py", pathToBuildFiles, "/.ScriptBin/"),
      Copy("modules.txt", pathToBuildFiles, "/.ScriptBin/")])
  {
    var support := SupportCopies(pathToBuildFiles);
    assert support == [support[0], support[1], support[2]];
    assert support[0] == Copy("DataInputStream.py", pathToBuildFiles, "/.ScriptBin/");
    assert support[1] == Copy("entrypoint.py", pathToBuildFiles, "/.ScriptBin/");
    assert support[2] == Copy("modules.txt", pathToBuildFiles, "/.ScriptBin/");
    var dockerfile := Copy("Dockerfile", pathToBuildFiles, "/.ScriptBin/default/");
    assert DockerfileCopy(pathToBuildFiles, "") == Ok(dockerfile);
    assert CopyPlan(pathToBuildFiles, "") == Ok([dockerfile] + support);
    assert [dockerfile] + support == [dockerfile, support[0], support[1], support[2]];
  }

  /** The pieces of a string of slashes are all empty. */
  lemma {:induction false} PiecesOfSlashes(s: string)
    requires AllSlashes(s)
    ensures forall i :: 0 <= i < |Pieces(s)| ==> Pieces(s)[i] == []
  {
    if s != [] {
      PiecesOfSlashes(s[..|s| - 1]);
    }
  }

  /** Some piece of a string holding a character other than '/' is non-empty. */
  lemma {:induction false} PiecesOfNonSlash(s: string, k: nat)
    requires k < |s| && s[k] != '/'
    ensures exists i :: 0 <= i < |Pieces(s)| && Pieces(s)[i] != []
  {
    var n := |s| - 1;
    var init := Pieces(s[..n]);
    if s[n] != '/' {
      assert Pieces(s)[|Pieces(s)| - 1] != [];
    } else {
      assert k < n;
      PiecesOfNonSlash(s[..n], k);
      var i :| 0 <= i < |init| && init[i] != [];
      assert Pieces(s)[i] == init[i];
    }
  }

  /** getFiles fails exactly when the Dockerfile path is non-empty and made of slashes only. */
  lemma {:induction false} PlanFailsIff(pathToBuildFiles: string, dockerfilePath: string)
    ensures CopyPlan(pathToBuildFiles, dockerfilePath).Err? <==> dockerfilePath != "" && AllSlashes(dockerfilePath)
  {
    var s := dockerfilePath;
    if s != "" {
      if AllSlashes(s) {
        assert s[0] == '/';
        PiecesOfSlashes(s);
      } else {
        var k :| 0 <= k < |s| && s[k] != '/';
        if '/' in s {
          PiecesOfNonSlash(s, k);
          var i :| 0 <= i < |Pieces(s)| && Pieces(s)[i] != [];
          var r := DropTrailingEmpty(Pieces(s));
          assert i < |r|;
        }
      }
    }
  }

  /**
   * For a path that does not end in '/', the Dockerfile is the path's last
   * segment, read from the rest of the path: location + fileName == path.
   */
  lemma {:induction false} SplitPathRejoins(pathToBuildFiles: string, dockerfilePath: string)
    requires dockerfilePath != "" && dockerfilePath[|dockerfilePath| - 1] != '/'
    ensures var c := DockerfileCopy(pathToBuildFiles, dockerfilePath);
      c.Ok? && c.value.location + c.value.fileName == dockerfilePath &&
      c.value.fileName != "" && '/' !in c.value.fileName &&
      (c.value.location == "" || c.value.location[|c.value.location| - 1] == '/')
  {
    var s := dockerfilePath;
    if '/' in s {
      var ps := Pieces(s);
      var n := |ps| - 1;
      var last := ps[n];
      assert DropTrailingEmpty(ps) == ps;
      var c := DockerfileCopy(pathToBuildFiles, s).value;
      assert c.fileName == last;
      JoinPieces(s);
      var front := if n == 0 then "" else Join(ps[..n]) + "/";
      assert s == front + last;
      assert c.location == front;
    }
  }

  /**
   * A path that ends in '/' but holds some other character is split without
   * error, but the file it reads is not the path: location + fileName != path.
   */
  lemma {:induction false} TrailingSlashMisreads(pathToBuildFiles: string, dockerfilePath: string)
    requires dockerfilePath != "" && dockerfilePath[|dockerfilePath| - 1] == '/'
    requires !AllSlashes(dockerfilePath)
    ensures var c := DockerfileCopy(pathToBuildFiles, dockerfilePath);
      c.Ok? && c.value.location + c.value.fileName != dockerfilePath
  {
    PlanFailsIff(pathToBuildFiles, dockerfilePath);
    var c := DockerfileCopy(pathToBuildFiles, dockerfilePath).value;
    var r := JavaSplit(dockerfilePath);
    assert c.fileName == r[|r| - 1];
    var name := c.fileName;
    assert name != [] && '/' !in name;
    assert name[|name| - 1] != '/';
    var whole := c.location + name;
    assert whole[|whole| - 1] == name[|name| - 1];
  }

  /** Appending a '/' to a string appends an empty piece. */
  lemma {:induction false} PiecesSnocSlash(t: string)
    ensures Pieces(t + "/") == Pieces(t) + [[]]
  {
    var s := t + "/";
    assert s[..|s| - 1] == t;
  }

  /** Appending another character extends the last piece. */
  lemma {:induction false} PiecesSnocChar(t: string, c: char)
    requires c != '/'
    ensures var ps := Pieces(t);
      Pieces(t + [c]) == ps[..|ps| - 1] + [ps[|ps| - 1] + [c]]
  {
    var s := t + [c];
    assert s[..|s| - 1] == t;
  }

  /** Appending a '/' and a segment without '/' appends that segment to the pieces. */
  lemma {:induction false} PiecesOfSegment(front: string, segment: string)
    requires '/' !in segment
    ensures Pieces(front + "/" + segment) == Pieces(front) + [segment]
    decreases |segment|
  {
    if segment == [] {
      assert front + "/" + segment == front + "/";
      PiecesSnocSlash(front);
    } else {
      var shorter := segment[..|segment| - 1];
      var c := segment[|segment| - 1];
      assert segment == shorter + [c];
      assert c != '/' && '/' !in shorter by {
        assert c in segment;
        assert forall x :: x in shorter ==> x in segment;
      }
      PiecesOfSegment(front, shorter);
      var t := front + "/" + shorter;
      assert front + "/" + segment == t + [c];
      PiecesSnocChar(t, c);
      var ps := Pieces(front) + [shorter];
      assert ps[..|ps| - 1] == Pieces(front);
    }
  }

  /** A string without '/' is a single piece. */
  lemma {:induction false} PiecesOfWord(word: string)
    requires '/' !in word
    ensures Pieces(word) == [word]
  {
    if word != [] {
      var shorter := word[..|word| - 1];
      var c := word[|word| - 1];
      assert word == shorter + [c];
      assert c != '/' && '/' !in shorter by {
        assert c in word;
        assert forall x :: x in shorter ==> x in word;
      }
      PiecesOfWord(shorter);
    }
  }

  /**
   * The trailing-slash case on "dir/name/": the Dockerfile read is
   * "dir/" + name[0] + name, as "dir/Dockerfile/" reads "dir/DDockerfile".
   */
  lemma {:induction false} TrailingSlashShifts(pathToBuildFiles: string, dir: string, name: string)
    requires '/' !in dir && '/' !in name && name != ""
    ensures DockerfileCopy(pathToBuildFiles, dir + "/" + name + "/") ==
      Ok(Copy(name, pathToBuildFiles, dir + "/" + name[..1]))
  {
    var s := dir + "/" + name + "/";
    SplitDirectoryPath(dir, name);
    assert s == dir + "/" + name[..1] + name[1..] + "/";
    assert s[..|s| - |name|] == dir + "/" + name[..1];
  }

  /** Java splits "dir/name/" into [dir, name]: the trailing empty piece is dropped. */
  lemma {:induction false} SplitDirectoryPath(dir: string, name: string)
    requires '/' !in dir && '/' !in name && name != ""
    ensures JavaSplit(dir + "/" + name + "/") == [dir, name]
  {
    var front := dir + "/" + name;
    PiecesOfWord(dir);
    PiecesOfSegment(dir, name);
    PiecesSnocSlash(front);
    var ps := [dir, name] + [[]];
    assert Pieces(front + "/") == ps;
    assert DropTrailingEmpty(ps) == [dir, name] by {
      assert ps[..2] == [dir, name];
    }
    assert '/' in front + "/" by {
      assert (front + "/")[|front|] == '/';
    }
  }

  /** JSON text of a string-to-string map, as Gson writes it; Gson is not part of this model. */
  type ToJson = map<string, string> -> string

  /** `replaceAll("\"", "'")`: every double quote becomes a single quote. */
  function ReplaceQuotes(s: string): (r: string)
    ensures |r| == |s|
    ensures forall i :: 0 <= i < |s| ==> r[i] == (if s[i] == '"' then '\'' else s[i])
  {
    if s == [] then []
    else [if s[0] == '"' then '\'' else s[0]] + ReplaceQuotes(s[1..])
  }

  /** No double quote is left, and replacing again changes nothing. */
  lemma {:induction false} ReplaceQuotesRemovesQuotes(s: string)
    ensures '"' !in ReplaceQuotes(s)
    ensures ReplaceQuotes(ReplaceQuotes(s)) == ReplaceQuotes(s)
  {
    var r := ReplaceQuotes(s);
    assert forall i :: 0 <= i < |r| ==> r[i] != '"';
  }

  /** A string without double quotes is left as it is. */
  lemma {:induction false} ReplaceQuotesKeepsQuoteFree(s: string)
    requires '"' !in s
    ensures ReplaceQuotes(s) == s
  {
  }

  /** The parameters with a non-null value, each turned into its string form. */
  function NonNullParameters<O>(parameters: map<string, Option<O>>, toText: O -> string): (r: map<string, string>)
    ensures forall name :: name in parameters ==> (name in r <==> parameters[name].Some?)
    ensures forall name :: name in r ==>
      name in parameters && parameters[name].Some? && r[name] == toText(parameters[name].value)
  {
    map name | name in parameters && parameters[name].Some? :: toText(parameters[name].value)
  }

  /** Exactly the parameters with a non-null value survive, with their string form. */
  lemma {:induction false} NonNullParametersKeys<O>(parameters: map<string, Option<O>>, toText: O -> string, name: string)
    ensures name in NonNullParameters(parameters, toText) <==> name in parameters && parameters[name].Some?
    ensures name in NonNullParameters(parameters, toText) ==>
      NonNullParameters(parameters, toText)[name] == toText(parameters[name].value)
  {
  }

  /** Visiting one more parameter adds it to the filtered map exactly when its value is non-null. */
  lemma {:induction false} NonNullParametersStep<O>(parameters: map<string, Option<O>>, remaining: set<string>, name: string,
                                 visited: map<string, string>, toText: O -> string)
    requires name in remaining && remaining <= parameters.Keys
    requires visited == NonNullParameters(parameters - remaining, toText)
    ensures NonNullParameters(parameters - (remaining - {name}), toText) ==
      if parameters[name].Some? then visited[name := toText(parameters[name].value)] else visited
  {
    var next := NonNullParameters(parameters - (remaining - {name}), toText);
    var expected := if parameters[name].Some? then visited[name := toText(parameters[name].value)] else visited;
    assert next.Keys == expected.Keys;
  }

  /** The parameters string of the build arguments; None is a null map. */
  function Stringified<O>(scriptParameters: Option<map<string, Option<O>>>, toText: O -> string, toJson: ToJson): (r: string)
    ensures scriptParameters.None? ==> r == " "
    ensures '"' !in r
  {
    match scriptParameters
    case None => " "
    case Some(parameters) => ReplaceQuotes(toJson(NonNullParameters(parameters, toText)))
  }

  // The pieces of the build arguments between the values, as buildImage appends them.
  const NameField: string := "{\"scriptName\":\""
  const ParamsField: string := "\"," + "\"scriptParameters\":\""
  const ModulesField: string := "\"," + "\"modulesName\":\""
  const ModulesSuffix: string := "Modules" + "\"}"

  /**
   * The build-arguments JSON handed to the Docker build:
   * {"scriptName":"<name>","scriptParameters":"<params>","modulesName":"<name>Modules"}
   */
  function BuildArgsText(scriptName: string, params: string): (r: string)
    ensures NameField + scriptName <= r
    ensures |scriptName + ModulesSuffix| <= |r| && r[|r| - |scriptName + ModulesSuffix|..] == scriptName + ModulesSuffix
  {
    NameField + scriptName + ParamsField + params + ModulesField + scriptName + ModulesSuffix
  }

  /** The longest prefix of s without a double quote. */
  function UpToQuote(s: string): (r: string)
    ensures r <= s && '"' !in r
    ensures |r| < |s| ==> s[|r|] == '"'
  {
    if s == [] || s[0] == '"' then [] else [s[0]] + UpToQuote(s[1..])
  }

  /** UpToQuote stops at the quote that ends a quote-free prefix. */
  lemma {:induction false} UpToQuoteStops(prefix: string, rest: string)
    requires '"' !in prefix && rest != [] && rest[0] == '"'
    ensures UpToQuote(prefix + rest) == prefix
  {
    if prefix != [] {
      assert (prefix + rest)[1..] == prefix[1..] + rest;
      UpToQuoteStops(prefix[1..], rest);
    } else {
      assert prefix + rest == rest;
    }
  }

  /** A quoted value read from JSON text and the text after it. */
  datatype Field = Field(value: string, rest: string)

  /** Reads the given prefix and then the value up to the next double quote. */
  function ReadField(prefix: string, s: string): Option<Field>
  {
    if prefix <= s then
      var after := s[|prefix|..];
      var value := UpToQuote(after);
      Some(Field(value, after[|value|..]))
    else None
  }

  /** A field read is the prefix, a quote-free value and a rest that starts at a quote. */
  lemma {:induction false} ReadFieldSound(prefix: string, s: string)
    requires ReadField(prefix, s).Some?
    ensures var f := ReadField(prefix, s).value;
      s == prefix + f.value + f.rest && '"' !in f.value && (f.rest == [] || f.rest[0] == '"')
  {
    var f := ReadField(prefix, s).value;
    var after := s[|prefix|..];
    assert prefix <= s && f.value == UpToQuote(after) && f.rest == after[|f.value|..];
    assert s == prefix + after by {
      SplitAt(s, |prefix|);
    }
    assert after == f.value + f.rest by {
      SplitAt(after, |f.value|);
    }
    assert s == prefix + f.value + f.rest by {
      assert prefix + (f.value + f.rest) == prefix + f.value + f.rest;
    }
  }

  /** A string is its prefix of length k followed by the rest. */
  lemma {:induction false} SplitAt(s: string, k: nat)
    requires k <= |s|
    ensures s == s[..k] + s[k..]
  {
  }

  /** A quote-free value followed by a quote is read back exactly. */
  lemma {:induction false} ReadFieldOf(prefix: string, value: string, rest: string)
    requires '"' !in value && rest != [] && rest[0] == '"'
    ensures ReadField(prefix, prefix + value + rest) == Some(Field(value, rest))
  {
    var s := prefix + value + rest;
    assert s == prefix + (value + rest);
    assert s[|prefix|..] == value + rest;
    UpToQuoteStops(value, rest);
    assert (value + rest)[|value|..] == rest;
  }

  /** Reads the script name and parameters back out of build arguments. */
  function ParseBuildArgs(text: string): Option<(string, string)>
  {
    match ReadField(NameField, text)
    case None => None
    case Some(name) =>
      match ReadField(ParamsField, name.rest)
      case None => None
      case Some(params) =>
        if params.rest == ModulesField + name.value + ModulesSuffix
        then Some((name.value, params.value)) else None
  }

  /** The appends of buildImage spell out the build arguments. */
  lemma {:induction false} AppendedBuildArgs(scriptName: string, params: string)
    ensures "" + "{\"scriptName\":\"" + scriptName + "\"," +
      "\"scriptParameters\":\"" + params + "\"," +
      "\"modulesName\":\"" + scriptName + "Modules" + "\"}" == BuildArgsText(scriptName, params)
  {
    var a := "{\"scriptName\":\"" + scriptName;
    assert "" + "{\"scriptName\":\"" == NameField;
    assert a + "\"," + "\"scriptParameters\":\"" == a + ParamsField;
    var b := a + ParamsField + params;
    assert b + "\"," + "\"modulesName\":\"" == b + ModulesField;
    var c := b + ModulesField + scriptName;
    assert c + "Modules" + "\"}" == c + ModulesSuffix;
  }

  /** The build arguments as the name field, the name and the rest. */
  lemma {:induction false} BuildArgsShape(scriptName: string, params: string)
    ensures BuildArgsText(scriptName, params) ==
      NameField + scriptName + (ParamsField + params + (ModulesField + scriptName + ModulesSuffix))
  {
    var closing := ModulesField + scriptName + ModulesSuffix;
    var a := NameField + scriptName;
    assert a + ParamsField + params + closing == a + (ParamsField + params + closing);
  }

  /** The quote-free script name and parameters are read back from the build arguments. */
  lemma {:induction false} ParseBuildArgsRoundTrip(scriptName: string, params: string)
    requires '"' !in scriptName && '"' !in params
    ensures ParseBuildArgs(BuildArgsText(scriptName, params)) == Some((scriptName, params))
  {
    var closing := ModulesField + scriptName + ModulesSuffix;
    var afterName := ParamsField + params + closing;
    BuildArgsShape(scriptName, params);
    assert afterName[0] == '"' by { assert ParamsField[0] == '"'; }
    ReadFieldOf(NameField, scriptName, afterName);
    assert closing[0] == '"' by { assert ModulesField[0] == '"'; }
    ReadFieldOf(ParamsField, params, closing);
  }

  /** Whatever parses is exactly the build arguments of the name and parameters read. */
  lemma {:induction false} ParseBuildArgsSound(text: string)
    requires ParseBuildArgs(text).Some?
    ensures var (scriptName, params) := ParseBuildArgs(text).value;
      '"' !in scriptName && '"' !in params && text == BuildArgsText(scriptName, params)
  {
    ReadFieldSound(NameField, text);
    var name := ReadField(NameField, text).value;
    ReadFieldSound(ParamsField, name.rest);
    var params := ReadField(ParamsField, name.rest).value;
    BuildArgsShape(name.value, params.value);
  }

  /** What buildImage asks Docker to build. */
  datatype BuildRequest = BuildRequest(
    directory: string,    // the build context
    tag: string,          // the image name
    dockerfile: string,   // the Dockerfile inside the context
    buildArgs: string,    // the build arguments before URL encoding
    buildParam: (string, string))  // the "buildargs" parameter, URL-encoded

  /**
   * The builder. Its only state here is the log of copies into the build
   * directory: the contents of the copied files are not modelled.
   */
  class DockerImageBuilder {
    var copies: seq<Copy>

    constructor ()
      ensures copies == []
    {
      copies := [];
    }

    /** Copies one file; a failing read or write is caught and printed, so it is recorded either way. */
    method CreateFile(fileName: string, destination: string, fileLocation: string)
      modifies this
      ensures copies == old(copies) + [Copy(fileName, destination, fileLocation)]
    {
      copies := copies + [Copy(fileName, destination, fileLocation)];
    }

    /** Copies the Dockerfile and the support files into the build directory. */
    method GetFiles(pathToBuildFiles: string, dockerfilePath: string) returns (r: Result<(), Failure>)
      modifies this
      ensures CopyPlan(pathToBuildFiles, dockerfilePath).Ok? ==>
        r.Ok? && copies == old(copies) + CopyPlan(pathToBuildFiles, dockerfilePath).value
      ensures CopyPlan(pathToBuildFiles, dockerfilePath).Err? ==>
        r == Err(CopyPlan(pathToBuildFiles, dockerfilePath).error) && copies == old(copies)
    {
      r := CopyDockerfile(pathToBuildFiles, dockerfilePath);
      if r.Err? {
        return;
      }
      CopySupportFiles(pathToBuildFiles);
      assert CopyPlan(pathToBuildFiles, dockerfilePath).value
        == [DockerfileCopy(pathToBuildFiles, dockerfilePath).value] + SupportCopies(pathToBuildFiles);
    }

    /** The first half of getFiles: the default Dockerfile, or the last segment of the given path. */
    method CopyDockerfile(pathToBuildFiles: string, dockerfilePath: string) returns (r: Result<(), Failure>)
      modifies this
      ensures DockerfileCopy(pathToBuildFiles, dockerfilePath).Ok? ==>
        r.Ok? && copies == old(copies) + [DockerfileCopy(pathToBuildFiles, dockerfilePath).value]
      ensures DockerfileCopy(pathToBuildFiles, dockerfilePath).Err? ==>
        r == Err(DockerfileCopy(pathToBuildFiles, dockerfilePath).error) && copies == old(copies)
    {
      if dockerfilePath == "" {
        CreateFile("Dockerfile", pathToBuildFiles, "/.ScriptBin/default/");
      } else {
        var pathSplit := JavaSplit(dockerfilePath);
        if |pathSplit| == 0 {
          return Err(ArrayIndexOutOfBounds(-1));
        }
        var fileName := pathSplit[|pathSplit| - 1];
        var fileLocation := dockerfilePath[..|dockerfilePath| - |fileName|];
        CreateFile(fileName, pathToBuildFiles, fileLocation);
      }
      r := Ok(());
    }

    /** The loop of getFiles that copies the support files, in order. */
    method CopySupportFiles(pathToBuildFiles: string)
      modifies this
      ensures copies == old(copies) + SupportCopies(pathToBuildFiles)
    {
      var fileNames := ["DataInputStream.py", "entrypoint.py", "modules.txt"];
      for i := 0 to |fileNames|
        invariant copies == old(copies) + SupportCopies(pathToBuildFiles)[..i]
      {
        CreateFile(fileNames[i], pathToBuildFiles, "/.ScriptBin/");
        assert SupportCopies(pathToBuildFiles)[..i + 1] == SupportCopies(pathToBuildFiles)[..i] + [SupportCopies(pathToBuildFiles)[i]];
      }
      assert SupportCopies(pathToBuildFiles)[..|fileNames|] == SupportCopies(pathToBuildFiles);
    }

    /** Converts the script parameters to the single-quoted JSON the image expects. */
    method StringifyParameters<O>(scriptParameters: Option<map<string, Option<O>>>, toText: O -> string, toJson: ToJson)
      returns (params: string)
      ensures params == Stringified(scriptParameters, toText, toJson)
      ensures '"' !in params
    {
      params := " ";
      if scriptParameters.Some? {
        var parameters := scriptParameters.value;
        var stringParameters: map<string, string> := map[];
        var remaining := parameters.Keys;
        while remaining != {}
          invariant remaining <= parameters.Keys
          invariant stringParameters == NonNullParameters(parameters - remaining, toText)
          decreases |remaining|
        {
          var parameterName :| parameterName in remaining;
          NonNullParametersStep(parameters, remaining, parameterName, stringParameters, toText);
          if parameters[parameterName].Some? {
            stringParameters := stringParameters[parameterName := toText(parameters[parameterName].value)];
          }
          remaining := remaining - {parameterName};
        }
        assert parameters - remaining == parameters;
        params := ReplaceQuotes(toJson(stringParameters));
        ReplaceQuotesRemovesQuotes(toJson(stringParameters));
      }
    }

    /**
     * Builds the request buildImage sends to Docker: the build arguments
     * carry the script name, its parameters and its modules name.
     */
    method BuildImage<O>(scriptName: string, scriptParameters: Option<map<string, Option<O>>>,
                         pathToBuildFiles: string, toText: O -> string, toJson: ToJson,
                         urlEncode: string -> string)
      returns (request: BuildRequest)
      ensures request.buildArgs == BuildArgsText(scriptName, Stringified(scriptParameters, toText, toJson))
      ensures request.buildParam == ("buildargs", urlEncode(request.buildArgs))
      ensures request.directory == pathToBuildFiles + "/"
      ensures request.tag == ImageTagPrefix + scriptName
      ensures request.dockerfile == DefaultDockerfile
      ensures '"' !in scriptName ==>
        ParseBuildArgs(request.buildArgs) == Some((scriptName, Stringified(scriptParameters, toText, toJson)))
    {
      var params := StringifyParameters(scriptParameters, toText, toJson);
      var buildargs := "";
      buildargs := buildargs + "{\"scriptName\":\"" + scriptName + "\",";
      buildargs := buildargs + "\"scriptParameters\":\"" + params + "\",";
      buildargs := buildargs + "\"modulesName\":\"" + scriptName + "Modules" + "\"}";
      AppendedBuildArgs(scriptName, params);
      if '"' !in scriptName {
        ParseBuildArgsRoundTrip(scriptName, params);
      }
      request := BuildRequest(pathToBuildFiles + "/", "scriptoperation:" + scriptName, "Dockerfile",
                              buildargs, ("buildargs", urlEncode(buildargs)));
    }
  }
}
