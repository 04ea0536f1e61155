/**
 * The `recipes` command: fetch one recipe (or every recipe with `--all`) and
 * write it as pretty-printed JSON or as the vendor's BeerXML conversion, under
 * a file name derived from the flags and the recipe's name.
 */
module Recipes {
  import opened Wrappers
  import opened Js
  import Paths
  import opened FileSystem
  import opened Picobrew
  import Credentials

  const DefaultFormat := "beerxml"
  const DefaultOutputFolder := "recipes"
  const UsageMessage := "invalid usage: either `recipeId` or `--all` is required"
  const ConflictMessage := "flags --format and --output conflict"
  const FetchFailedMessage := "failed to fetch json recipe"
  const MissingVMMessage := "Cannot read property 'Recipe' of undefined"
  const MissingRecipeMessage := "Cannot read property 'Name' of null"

  // Endpoints, relative to the service's base URL
  const RecipeListPath := "Z_Crafter/JSON/Z_Recipe_JSON"
  const RecipeVMPath := "API/Rest/RestAPI.cshtml?type=RecipeVMRequest&id="
  const RecipeXMLPath := "z_crafter/json/exportrecipejson"
  const FormContentType := "application/x-www-form-urlencoded"

  /** The parsed flags the command reads. */
  datatype Flags = Flags(format: string, outputFilename: Option<string>, outputFolder: string, all: bool)

  /** The flags when none is given on the command line. */
  const DefaultFlags := Flags(DefaultFormat, None, DefaultOutputFolder, false)

  datatype Args = Args(recipeId: Option<string>)

  /**
   * How an export ends: `this.error(message)`, a request error nobody catches,
   * or a TypeError from reading a property of undefined or null.
   */
  datatype Error = CommandError(message: string) | Rejected(error: HttpError) | TypeError(message: string)

  // ---------------------------------------------------------------------------
  // File naming

  /** The index of the last occurrence of c in s. */
  function LastIndexOf(s: string, c: char): (r: Option<nat>)
    ensures r.None? <==> c !in s
    ensures r.Some? ==> r.value < |s| && s[r.value] == c && c !in s[r.value + 1..]
  {
    if s == [] then None
    else if s[|s| - 1] == c then Some(|s| - 1)
    else
      var r := LastIndexOf(s[..|s| - 1], c);
      assert r.Some? ==> s[r.value + 1..] == s[..|s| - 1][r.value + 1..] + [s[|s| - 1]];
      assert r.None? ==> s == s[..|s| - 1] + [s[|s| - 1]];
      r
  }

  /**
   * The extension `/(?:\.([^.]+))?$/` captures: the non-empty, dot-free text
   * after the last dot; none when there is no dot or the name ends with one.
   */
  function ExtOf(name: string): (ext: Option<string>)
    ensures ext.None? <==> ('.' !in name || name[|name| - 1] == '.')
    ensures ext.Some? ==> ext.value != [] && '.' !in ext.value && |ext.value| < |name|
                          && name[|name| - |ext.value| - 1] == '.' && name[|name| - |ext.value|..] == ext.value
  {
    match LastIndexOf(name, '.')
    case None => None
    case Some(i) => if i + 1 < |name| then Some(name[i + 1..]) else None
  }

  /** The regular expression tried at position i: the group `\.([^.]+)` and then `$`. */
  predicate GroupMatchesAt(s: string, i: nat) {
    i + 1 < |s| && s[i] == '.' && '.' !in s[i + 1..]
  }

  /**
   * `re.exec(s)[1]`, by the regular expression's own semantics: scanning left to
   * right, the first position where the group and `$` match yields the group;
   * the end of the string matches `$` alone and leaves the group undefined.
   */
  function RegexCapture(s: string, i: nat): Option<string>
    requires i <= |s|
    decreases |s| - i
  {
    if GroupMatchesAt(s, i) then Some(s[i + 1..])
    else if i == |s| then None
    else RegexCapture(s, i + 1)
  }

  lemma {:induction false} RegexCaptureFrom(s: string, i: nat)
    requires i <= |s|
    requires ExtOf(s).Some? ==> LastIndexOf(s, '.').value >= i
    ensures RegexCapture(s, i) == ExtOf(s)
    decreases |s| - i
  {
    var last := LastIndexOf(s, '.');
    if GroupMatchesAt(s, i) {
      var l := last.value;
    } else if i < |s| {
      RegexCaptureFrom(s, i + 1);
    }
  }

  /** The scan of the regular expression and the last-dot rule agree on every name. */
  lemma RegexCaptureIsExtOf(s: string)
    ensures RegexCapture(s, 0) == ExtOf(s)
  {
    RegexCaptureFrom(s, 0);
  }

  /** A dot followed by a non-empty, dot-free text is the extension of whatever precedes it. */
  lemma ExtOfAppended(s: string, e: string)
    requires e != [] && '.' !in e
    ensures ExtOf(s + "." + e) == Some(e)
  {
    var t := s + "." + e;
    assert t[|s|] == '.';
    assert t[|s| + 1..] == e;
    var l := LastIndexOf(t, '.').value;
  }

  /** `flags.output_filename` when it is truthy: given and non-empty. */
  function ExplicitName(outputFilename: Option<string>): (n: Option<string>)
    ensures n.Some? <==> outputFilename.Some? && outputFilename.value != ""
    ensures n.Some? ==> n == outputFilename
  {
    if outputFilename.Some? && outputFilename.value != "" then outputFilename else None
  }

  /**
   * The extension `writeOutputFile` finds: only an explicit file name is
   * inspected, and what it finds is a non-empty, dot-free tail of that name.
   */
  function ExplicitExt(outputFilename: Option<string>): (ext: Option<string>)
    ensures ExplicitName(outputFilename).None? ==> ext.None?
    ensures ext.Some? ==> ext.value != [] && '.' !in ext.value
    ensures ext.Some? ==> outputFilename.Some? && |ext.value| < |outputFilename.value|
                          && outputFilename.value[|outputFilename.value| - |ext.value|..] == ext.value
  {
    match ExplicitName(outputFilename)
    case None => None
    case Some(f) => ExtOf(f)
  }

  /** The extension appended for a format: `.json` for json, `.xml` for anything else. */
  function FormatSuffix(format: string): string {
    if format == "json" then ".json" else ".xml"
  }

  /**
   * The name of the file `writeOutputFile` writes: an explicit name with an
   * extension as it is, anything else with the format's suffix at its end.
   */
  function ResolveFilename(outputFilename: Option<string>, recipeName: string, format: string): (name: string)
    ensures ExplicitExt(outputFilename).Some? ==> name == outputFilename.value
    ensures ExplicitExt(outputFilename).None? ==>
              |FormatSuffix(format)| <= |name| && name[|name| - |FormatSuffix(format)|..] == FormatSuffix(format)
  {
    var filename := if ExplicitName(outputFilename).Some? then outputFilename.value else recipeName;
    if ExplicitExt(outputFilename).None? then filename + FormatSuffix(format) else filename
  }

  /**
   * The naming table: without an explicit name the recipe name gets the
   * format's suffix (whatever dots it holds); an explicit name with an
   * extension is kept verbatim; one without gets the format's suffix.
   */
  lemma ResolveFilenameTable(outputFilename: Option<string>, recipeName: string, format: string)
    ensures ExplicitName(outputFilename).None? ==>
              ResolveFilename(outputFilename, recipeName, format) == recipeName + FormatSuffix(format)
    ensures ExplicitName(outputFilename).Some? && ExtOf(outputFilename.value).Some? ==>
              ResolveFilename(outputFilename, recipeName, format) == outputFilename.value
    ensures ExplicitName(outputFilename).Some? && ExtOf(outputFilename.value).None? ==>
              ResolveFilename(outputFilename, recipeName, format) == outputFilename.value + FormatSuffix(format)
  {
  }

  /**
   * The written file always has an extension: the explicit name's own one, or
   * else `json` for format json and `xml` for every other format.
   */
  lemma ResolvedExtension(outputFilename: Option<string>, recipeName: string, format: string)
    ensures ExtOf(ResolveFilename(outputFilename, recipeName, format))
            == if ExplicitExt(outputFilename).Some? then ExplicitExt(outputFilename)
               else Some(if format == "json" then "json" else "xml")
  {
    var filename := if ExplicitName(outputFilename).Some? then outputFilename.value else recipeName;
    var resolved := ResolveFilename(outputFilename, recipeName, format);
    if ExplicitExt(outputFilename).None? {
      var e := if format == "json" then "json" else "xml";
      assert resolved == filename + "." + e;
      ExtOfAppended(filename, e);
    } else {
      assert resolved == outputFilename.value;
    }
  }

  /**
   * `ext == "xml" && format == "json" || ext == "json" && format == "beerxml"`
   * (case-sensitive): only a found extension can conflict, and only with one of
   * the two formats that write a file.
   */
  predicate Conflict(ext: Option<string>, format: string)
    ensures Conflict(ext, format) ==> ext.Some? && ext.value in {"xml", "json"} && format in {"json", "beerxml"}
    ensures Conflict(ext, format) ==> ext.value != (if format == "json" then "json" else "xml")
  {
    (ext == Some("xml") && format == "json") || (ext == Some("json") && format == "beerxml")
  }

  /** The format an extension stands for. */
  function FormatNamedBy(ext: string): Option<string> {
    if ext == "xml" then Some("beerxml") else if ext == "json" then Some("json") else None
  }

  /**
   * A conflict is exactly an extension that stands for one of the two formats
   * while the other one is requested; unknown extensions, other formats and
   * differently-cased names never conflict.
   */
  lemma ConflictIsDisagreement(ext: Option<string>, format: string)
    ensures Conflict(ext, format) <==>
              ext.Some? && format in {"json", "beerxml"} && FormatNamedBy(ext.value).Some?
              && FormatNamedBy(ext.value).value != format
  {
  }

  /** `${flags.output_folder}/${filename}` */
  function OutputPath(flags: Flags, recipeName: string): string {
    flags.outputFolder + "/" + ResolveFilename(flags.outputFilename, recipeName, flags.format)
  }

  /** The written file as the file system sees it. */
  function OutputFile(flags: Flags, recipeName: string): Path {
    Paths.Segments(OutputPath(flags, recipeName))
  }

  /** The file lands under the output folder, at the components of the resolved name. */
  lemma OutputFileUnderFolder(flags: Flags, recipeName: string)
    ensures OutputFile(flags, recipeName)
            == Paths.Segments(flags.outputFolder) + Paths.Segments(ResolveFilename(flags.outputFilename, recipeName, flags.format))
  {
    Paths.SegmentsOfSlashJoin(flags.outputFolder, ResolveFilename(flags.outputFilename, recipeName, flags.format));
  }

  /** With every flag at its default, a recipe is written as `recipes/<name>.xml`. */
  lemma DefaultOutputPath(recipeName: string)
    ensures OutputPath(DefaultFlags, recipeName) == "recipes/" + recipeName + ".xml"
  {
  }

  /** With an explicit file name, every recipe resolves to the same file. */
  lemma ExplicitNameSharedByAll(flags: Flags, name1: string, name2: string)
    requires ExplicitName(flags.outputFilename).Some?
    ensures OutputFile(flags, name1) == OutputFile(flags, name2)
  {
  }

  /**
   * `writeOutputFile`: resolve the name, reject a format/extension conflict
   * before touching the disk, otherwise create the folders and write the body.
   */
  method WriteOutputFile(disk: Disk, flags: Flags, recipeName: string, body: Content) returns (r: Outcome<Error>)
    requires disk.Valid()
    modifies disk
    ensures disk.Valid()
    ensures r.Fail? <==> Conflict(ExplicitExt(flags.outputFilename), flags.format)
    ensures r.Fail? ==> r.error == CommandError(ConflictMessage) && disk.State() == old(disk.State())
    ensures r.Pass? ==> disk.State() == WriteEffect(old(disk.State()), OutputFile(flags, recipeName), body)
  {
    var filename := if ExplicitName(flags.outputFilename).Some? then flags.outputFilename.value else recipeName;
    var ext: Option<string> := None;
    if ExplicitName(flags.outputFilename).Some? {
      ext := ExtOf(flags.outputFilename.value);
    }
    if ext.None? {
      filename := filename + (if flags.format == "json" then ".json" else ".xml");
    }
    if (ext == Some("xml") && flags.format == "json") || (ext == Some("json") && flags.format == "beerxml") {
      return Fail(CommandError(ConflictMessage));
    }
    var path := Paths.Segments(flags.outputFolder + "/" + filename);
    disk.EnsureDirectoryExistence(path);
    var _ := disk.WriteFile(path, body);
    r := Pass;
  }

  // ---------------------------------------------------------------------------
  // Requests

  /** The request listing every recipe of the account (the user id is not sent). */
  function FetchAllRecipes(user: string, jar: seq<Cookie>): (o: Options)
    ensures o.path == RecipeListPath && o.cookieJar == jar
    ensures o.body.FormBody? && o.body.fields == [("option", "getRecipes")]
    ensures o.responseType == "json"
  {
    Options(RecipeListPath, jar, [], FormBody([("option", "getRecipes")]), "json")
  }

  /** The request for one recipe's JSON: the account id in the query, the recipe id in the body, metric units off. */
  function FetchRecipeJSON(recipeId: string, user: string, jar: seq<Cookie>): (o: Options)
    ensures o.path == RecipeVMPath + user && o.cookieJar == jar
    ensures o.body.JsonBody?
    ensures Get(o.body.json, "RecipeGUID") == Some(Str(recipeId))
    ensures Get(o.body.json, "UseMetric") == Some(Str("false"))
    ensures o.responseType == "json"
  {
    Options(RecipeVMPath + user, jar, [],
            JsonBody(Obj(map["UseMetric" := Str("false"), "RecipeGUID" := Str(recipeId)])), "json")
  }

  /** The conversion request: the recipe's JSON after `recipe=`, unencoded, answered as text. */
  function FetchRecipeXML(recipe: Value, jar: seq<Cookie>): (o: Options)
    ensures o.path == RecipeXMLPath && o.cookieJar == jar
    ensures o.headers == [("content-type", FormContentType)]
    ensures o.body == TextBody("recipe=", recipe)
    ensures o.responseType == "text"
  {
    Options(RecipeXMLPath, jar, [("content-type", FormContentType)],
            TextBody("recipe=", recipe), "text")
  }

  // ---------------------------------------------------------------------------
  // Exporting one recipe

  /** What exporting one recipe does: the requests it sends, the file it writes, how it ends. */
  datatype Export = Export(requests: seq<Request>, write: Option<(Path, Content)>, outcome: Outcome<Error>)

  function WritesOf(e: Export): seq<(Path, Content)> {
    if e.write.Some? then [e.write.value] else []
  }

  /**
   * `exportRecipeToFile` for format json: fetch the recipe and write it under
   * `VM.Recipe.Name`; any failure, the conflict included, is caught and reported
   * as "failed to fetch json recipe".
   */
  function JsonExport(flags: Flags, recipeId: string, user: string, jar: seq<Cookie>, send: Transport): (e: Export)
    ensures e.requests == [Extend(FetchRecipeJSON(recipeId, user, jar))]
    ensures e.write.Some? ==>
              && Post(send, FetchRecipeJSON(recipeId, user, jar)).Ok?
              && e.write.value.1 == Pretty(Post(send, FetchRecipeJSON(recipeId, user, jar)).response.body)
    ensures e.write.Some? <==> e.outcome.Pass?
    ensures e.outcome.Fail? ==> e.outcome.error == CommandError(FetchFailedMessage)
    ensures Conflict(ExplicitExt(flags.outputFilename), flags.format) ==> e.write.None?
  {
    var request := Extend(FetchRecipeJSON(recipeId, user, jar));
    var failed := Export([request], None, Fail(CommandError(FetchFailedMessage)));
    match Post(send, FetchRecipeJSON(recipeId, user, jar))
    case Thrown(_) => failed
    case Ok(response) =>
      match GetPath(response.body, ["VM", "Recipe", "Name"])
      case None => failed
      case Some(name) =>
        if Conflict(ExplicitExt(flags.outputFilename), flags.format) then failed
        else Export([request], Some((OutputFile(flags, Display(name)), Pretty(response.body))), Pass)
  }

  /**
   * `exportRecipeToFile` for format beerxml: fetch the recipe, have the vendor
   * convert `VM.Recipe`, and write the text returned. Nothing is caught here.
   */
  function BeerXmlExport(flags: Flags, recipeId: string, user: string, jar: seq<Cookie>, send: Transport): (e: Export)
    ensures 1 <= |e.requests| <= 2 && e.requests[0] == Extend(FetchRecipeJSON(recipeId, user, jar))
    ensures e.write.Some? <==> e.outcome.Pass?
    ensures e.write.Some? ==> |e.requests| == 2 && e.write.value.1.Raw?
    ensures e.write.Some? ==>
              && Post(send, FetchRecipeJSON(recipeId, user, jar)).Ok?
              && GetPath(Post(send, FetchRecipeJSON(recipeId, user, jar)).response.body, ["VM", "Recipe"]).Some?
              && var recipe := GetPath(Post(send, FetchRecipeJSON(recipeId, user, jar)).response.body, ["VM", "Recipe"]).value;
              && Post(send, FetchRecipeXML(recipe, jar)).Ok?
              && e.write.value.1 == Raw(Post(send, FetchRecipeXML(recipe, jar)).response.body)
    ensures Post(send, FetchRecipeJSON(recipeId, user, jar)).Thrown? ==>
              e.outcome == Fail(Rejected(Post(send, FetchRecipeJSON(recipeId, user, jar)).error))
    ensures Conflict(ExplicitExt(flags.outputFilename), flags.format) ==> e.write.None?
  {
    var first := Extend(FetchRecipeJSON(recipeId, user, jar));
    match Post(send, FetchRecipeJSON(recipeId, user, jar))
    case Thrown(e) => Export([first], None, Fail(Rejected(e)))
    case Ok(response) =>
      match GetPath(response.body, ["VM", "Recipe"])
      case None => Export([first], None, Fail(TypeError(MissingVMMessage)))
      case Some(recipe) =>
        var second := Extend(FetchRecipeXML(recipe, jar));
        match Post(send, FetchRecipeXML(recipe, jar))
        case Thrown(e) => Export([first, second], None, Fail(Rejected(e)))
        case Ok(xml) =>
          match Get(recipe, "Name")
          case None => Export([first, second], None, Fail(TypeError(MissingRecipeMessage)))
          case Some(name) =>
            if Conflict(ExplicitExt(flags.outputFilename), flags.format)
            then Export([first, second], None, Fail(CommandError(ConflictMessage)))
            else Export([first, second], Some((OutputFile(flags, Display(name)), Raw(xml.body))), Pass)
  }

  /** `exportRecipeToFile`: dispatch on the format; any format but json and beerxml does nothing. */
  function RecipeExport(flags: Flags, recipeId: string, user: string, jar: seq<Cookie>, send: Transport): (e: Export)
    ensures flags.format in {"json", "beerxml"} ==> |e.requests| >= 1 && e.requests[0] == Extend(FetchRecipeJSON(recipeId, user, jar))
    ensures flags.format !in {"json", "beerxml"} ==> e == Export([], None, Pass)
    ensures e.write.Some? <==> e.outcome.Pass? && flags.format in {"json", "beerxml"}
  {
    if flags.format == "json" then JsonExport(flags, recipeId, user, jar, send)
    else if flags.format == "beerxml" then BeerXmlExport(flags, recipeId, user, jar, send)
    else Export([], None, Pass)
  }

  /**
   * What one export writes: json writes the fetched recipe pretty-printed,
   * beerxml the converted text, both under the name `VM.Recipe.Name` resolves
   * to; every other format sends nothing and writes nothing.
   */
  lemma RecipeExportWrites(flags: Flags, recipeId: string, user: string, jar: seq<Cookie>, send: Transport)
    ensures var e := RecipeExport(flags, recipeId, user, jar, send);
            && (e.write.Some? ==> e.outcome == Pass)
            && (flags.format == "json" && e.write.Some? ==>
                  var response := Post(send, FetchRecipeJSON(recipeId, user, jar)).response;
                  e.write.value == (OutputFile(flags, Display(GetPath(response.body, ["VM", "Recipe", "Name"]).value)),
                                    Pretty(response.body)))
            && (flags.format == "beerxml" && e.write.Some? ==>
                  var recipe := GetPath(Post(send, FetchRecipeJSON(recipeId, user, jar)).response.body, ["VM", "Recipe"]).value;
                  && |e.requests| == 2
                  && e.write.value == (OutputFile(flags, Display(Get(recipe, "Name").value)),
                                       Raw(Post(send, FetchRecipeXML(recipe, jar)).response.body)))
            && (flags.format !in {"json", "beerxml"} ==> e == Export([], None, Pass))
  {
  }

  /**
   * The conflict is detected only after the recipe has been fetched: a
   * conflicting format and file name still send the recipe request, and then
   * write nothing.
   */
  lemma ConflictFoundAfterFetch(flags: Flags, recipeId: string, user: string, jar: seq<Cookie>, send: Transport)
    requires Conflict(ExplicitExt(flags.outputFilename), flags.format)
    ensures var e := RecipeExport(flags, recipeId, user, jar, send);
            && e.write.None? && e.outcome.Fail?
            && |e.requests| >= 1 && e.requests[0] == Extend(FetchRecipeJSON(recipeId, user, jar))
  {
  }

  /** `exportRecipeToFile`, as the command runs it. */
  method ExportRecipeToFile(disk: Disk, flags: Flags, recipeId: string, user: string, jar: seq<Cookie>, send: Transport)
    returns (r: Outcome<Error>)
    requires disk.Valid()
    modifies disk
    ensures disk.Valid()
    ensures r == RecipeExport(flags, recipeId, user, jar, send).outcome
    ensures disk.State() == ApplyWrites(old(disk.State()), WritesOf(RecipeExport(flags, recipeId, user, jar, send)))
  {
    ghost var before := disk.State();
    assert ApplyWrites(before, []) == before;
    r := Pass;
    if flags.format == "json" {
      var response := Post(send, FetchRecipeJSON(recipeId, user, jar));
      if response.Thrown? {
        return Fail(CommandError(FetchFailedMessage));
      }
      var name := GetPath(response.response.body, ["VM", "Recipe", "Name"]);
      if name.None? {
        return Fail(CommandError(FetchFailedMessage));
      }
      var written := WriteOutputFile(disk, flags, Display(name.value), Pretty(response.response.body));
      if written.Fail? {
        r := Fail(CommandError(FetchFailedMessage));
      }
    } else if flags.format == "beerxml" {
      var response := Post(send, FetchRecipeJSON(recipeId, user, jar));
      if response.Thrown? {
        return Fail(Rejected(response.error));
      }
      var recipe := GetPath(response.response.body, ["VM", "Recipe"]);
      if recipe.None? {
        return Fail(TypeError(MissingVMMessage));
      }
      var xml := Post(send, FetchRecipeXML(recipe.value, jar));
      if xml.Thrown? {
        return Fail(Rejected(xml.error));
      }
      var name := Get(recipe.value, "Name");
      if name.None? {
        return Fail(TypeError(MissingRecipeMessage));
      }
      r := WriteOutputFile(disk, flags, Display(name.value), Raw(xml.response.body));
    }
  }

  // ---------------------------------------------------------------------------
  // Exporting every recipe

  /** The recipe id `recipe.GUID` gives, as the template literal in the request prints it. */
  function GuidOf(recipe: Value): (guid: string)
    ensures !Nullish(recipe) ==> guid == Display(Prop(recipe, "GUID"))
    ensures recipe.Obj? && "GUID" in recipe.fields && recipe.fields["GUID"].Str? ==> guid == recipe.fields["GUID"].s
  {
    match Get(recipe, "GUID")
    case Some(guid) => Display(guid)
    case None => "undefined"
  }

  /** The exports of a list of recipe entries, in order. */
  function ExportsOf(flags: Flags, recipes: seq<Value>, user: string, jar: seq<Cookie>, send: Transport): (es: seq<Export>)
    ensures |es| == |recipes|
    decreases |recipes|
  {
    if recipes == [] then []
    else
      ExportsOf(flags, recipes[..|recipes| - 1], user, jar, send)
      + [RecipeExport(flags, GuidOf(recipes[|recipes| - 1]), user, jar, send)]
  }

  /** Entry i of the exports is the export of the i-th listed recipe: one export per entry, in order. */
  lemma {:induction false} ExportsOfAt(flags: Flags, recipes: seq<Value>, i: nat, user: string, jar: seq<Cookie>,
                                       send: Transport)
    requires i < |recipes|
    ensures ExportsOf(flags, recipes, user, jar, send)[i] == RecipeExport(flags, GuidOf(recipes[i]), user, jar, send)
    decreases |recipes|
  {
    var front := recipes[..|recipes| - 1];
    if i < |front| {
      ExportsOfAt(flags, front, i, user, jar, send);
      assert front[i] == recipes[i];
    }
  }

  /** Everything a list of exports writes, in order. */
  function AllWrites(es: seq<Export>): seq<(Path, Content)>
    decreases |es|
  {
    if es == [] then [] else AllWrites(es[..|es| - 1]) + WritesOf(es[|es| - 1])
  }

  /** Every file an export writes is the output file of some recipe name. */
  lemma ExportWritesOutputFile(flags: Flags, recipeId: string, user: string, jar: seq<Cookie>, send: Transport)
    ensures var e := RecipeExport(flags, recipeId, user, jar, send);
            e.write.Some? ==> exists name :: e.write.value.0 == OutputFile(flags, name)
  {
    var e := RecipeExport(flags, recipeId, user, jar, send);
    if e.write.Some? {
      var response := Post(send, FetchRecipeJSON(recipeId, user, jar)).response;
      if flags.format == "json" {
        var name := GetPath(response.body, ["VM", "Recipe", "Name"]).value;
        assert e.write.value.0 == OutputFile(flags, Display(name));
      } else {
        var recipe := GetPath(response.body, ["VM", "Recipe"]).value;
        assert e.write.value.0 == OutputFile(flags, Display(Get(recipe, "Name").value));
      }
    }
  }

  /**
   * With an explicit file name, every file the `--all` export writes is the
   * same file: each recipe overwrites the one before.
   */
  lemma {:induction false} AllModeWritesOneFile(flags: Flags, recipes: seq<Value>, user: string, jar: seq<Cookie>,
                                                send: Transport, name: string)
    requires ExplicitName(flags.outputFilename).Some?
    ensures forall w :: w in AllWrites(ExportsOf(flags, recipes, user, jar, send)) ==> w.0 == OutputFile(flags, name)
    decreases |recipes|
  {
    if recipes != [] {
      var es := ExportsOf(flags, recipes, user, jar, send);
      var front := recipes[..|recipes| - 1];
      AllModeWritesOneFile(flags, front, user, jar, send, name);
      assert es[..|es| - 1] == ExportsOf(flags, front, user, jar, send);
      var e := es[|es| - 1];
      assert AllWrites(es) == AllWrites(ExportsOf(flags, front, user, jar, send)) + WritesOf(e);
      ExportWritesOutputFile(flags, GuidOf(recipes[|recipes| - 1]), user, jar, send);
      if e.write.Some? {
        var n :| e.write.value.0 == OutputFile(flags, n);
        ExplicitNameSharedByAll(flags, n, name);
      }
    }
  }

  /**
   * The `--all` loop: one export per entry, in order; reading `GUID` of an
   * undefined or null entry throws, which ends the loop with "failed to fetch
   * json recipe". The individual exports run detached, so their failures do
   * not stop the loop.
   */
  method ExportAll(disk: Disk, flags: Flags, recipes: seq<Value>, user: string, jar: seq<Cookie>, send: Transport)
    returns (r: Outcome<Error>)
    requires disk.Valid()
    modifies disk
    ensures disk.Valid()
    ensures r.Fail? <==> NonNullishPrefix(recipes) < |recipes|
    ensures r.Fail? ==> r.error == CommandError(FetchFailedMessage)
    ensures disk.State() == ApplyWrites(old(disk.State()),
                                        AllWrites(ExportsOf(flags, recipes[..NonNullishPrefix(recipes)], user, jar, send)))
  {
    var n := NonNullishPrefix(recipes);
    var i := 0;
    r := Pass;
    while i < |recipes| && r.Pass?
      invariant 0 <= i <= n
      invariant r.Fail? ==> i == n < |recipes| && r.error == CommandError(FetchFailedMessage)
      invariant disk.Valid()
      invariant disk.State() == ApplyWrites(old(disk.State()), AllWrites(ExportsOf(flags, recipes[..i], user, jar, send)))
      decreases |recipes| - i, if r.Pass? then 1 else 0
    {
      var guid := Get(recipes[i], "GUID");
      if guid.None? {
        r := Fail(CommandError(FetchFailedMessage));
      } else {
        ghost var done := AllWrites(ExportsOf(flags, recipes[..i], user, jar, send));
        ghost var e := RecipeExport(flags, GuidOf(recipes[i]), user, jar, send);
        var _ := ExportRecipeToFile(disk, flags, Display(guid.value), user, jar, send);
        ExportsOfStep(flags, recipes, i, user, jar, send);
        ApplyWritesAppend(old(disk.State()), done, WritesOf(e));
        i := i + 1;
      }
    }
  }

  /** Extending the processed prefix by one entry adds that entry's writes. */
  lemma ExportsOfStep(flags: Flags, recipes: seq<Value>, i: nat, user: string, jar: seq<Cookie>, send: Transport)
    requires i < |recipes|
    ensures AllWrites(ExportsOf(flags, recipes[..i + 1], user, jar, send))
            == AllWrites(ExportsOf(flags, recipes[..i], user, jar, send))
               + WritesOf(RecipeExport(flags, GuidOf(recipes[i]), user, jar, send))
  {
    var es := ExportsOf(flags, recipes[..i + 1], user, jar, send);
    assert recipes[..i + 1][..i] == recipes[..i];
    assert es[..|es| - 1] == ExportsOf(flags, recipes[..i], user, jar, send);
  }

  // ---------------------------------------------------------------------------
  // The command

  /** The list the `--all` export walks: the response body, when it is an array. */
  function RecipeList(user: string, jar: seq<Cookie>, send: Transport): (list: Option<seq<Value>>)
    ensures list.Some? <==> Post(send, FetchAllRecipes(user, jar)).Ok? && Post(send, FetchAllRecipes(user, jar)).response.body.Arr?
    ensures list.Some? ==> Post(send, FetchAllRecipes(user, jar)).response.body == Arr(list.value)
  {
    match Post(send, FetchAllRecipes(user, jar))
    case Thrown(_) => None
    case Ok(response) => if response.body.Arr? then Some(response.body.elems) else None
  }

  /**
   * What the command does once it holds a user id and a cookie jar, from the
   * disk it found to the disk it leaves: export the one recipe, or fetch the
   * list and export every entry before the first undefined or null one.
   */
  predicate ExportedWith(before: FsState, after: FsState, r: Outcome<Error>, args: Args, flags: Flags,
                         user: string, jar: seq<Cookie>, send: Transport)
    requires args.recipeId.Some? || flags.all
  {
    if !flags.all then
      var e := RecipeExport(flags, args.recipeId.value, user, jar, send);
      r == e.outcome && after == ApplyWrites(before, WritesOf(e))
    else match RecipeList(user, jar, send)
      case None => r == Fail(CommandError(FetchFailedMessage)) && after == before
      case Some(recipes) =>
        && (r.Fail? <==> NonNullishPrefix(recipes) < |recipes|)
        && (r.Fail? ==> r == Fail(CommandError(FetchFailedMessage)))
        && after == ApplyWrites(before, AllWrites(ExportsOf(flags, recipes[..NonNullishPrefix(recipes)], user, jar, send)))
  }

  /** The part of `run` after the credential is read: one export, or the `--all` loop over the fetched list. */
  method ExportWith(disk: Disk, args: Args, flags: Flags, user: string, jar: seq<Cookie>, send: Transport)
    returns (r: Outcome<Error>)
    requires disk.Valid()
    requires args.recipeId.Some? || flags.all
    modifies disk
    ensures disk.Valid()
    ensures ExportedWith(old(disk.State()), disk.State(), r, args, flags, user, jar, send)
  {
    if flags.all {
      var response := Post(send, FetchAllRecipes(user, jar));
      if response.Thrown? || !response.response.body.Arr? {
        return Fail(CommandError(FetchFailedMessage));
      }
      r := ExportAll(disk, flags, response.response.body.elems, user, jar, send);
    } else {
      r := ExportRecipeToFile(disk, flags, args.recipeId.value, user, jar, send);
    }
  }

  /**
   * `run` as written: the usage check comes first; then `credentials()` reads
   * the keychain, whose first entry becomes the cookie jar, and one recipe, or
   * every listed recipe, is exported. With an empty keychain `credentials()`
   * throws before any request, and the keychain is never written.
   */
  method Run(disk: Disk, keychain: Credentials.Keychain, args: Args, flags: Flags, send: Transport)
    returns (r: Outcome<Error>)
    requires disk.Valid()
    modifies disk
    ensures disk.Valid()
    ensures unchanged(keychain)
    ensures args.recipeId.None? && !flags.all ==>
              r == Fail(CommandError(UsageMessage)) && disk.State() == old(disk.State())
    ensures (args.recipeId.Some? || flags.all) && keychain.entries == [] ==>
              r == Fail(TypeError(Credentials.NoEntryMessage)) && disk.State() == old(disk.State())
    ensures (args.recipeId.Some? || flags.all) && keychain.entries != [] ==>
              var first := keychain.entries[0];
              ExportedWith(old(disk.State()), disk.State(), r, args, flags,
                           first.account, Credentials.SetupCookieJar(Some(first.password)), send)
  {
    if args.recipeId.None? && !flags.all {
      return Fail(CommandError(UsageMessage));
    }
    var login := keychain.Credentials();
    if login.Failure? {
      return Fail(TypeError(login.error.message));
    }
    var user := login.value.account;
    var jar := Credentials.SetupCookieJar(login.value.password);
    r := ExportWith(disk, args, flags, user, jar, send);
  }

  /**
   * `run` over `credentials()` as evidently intended: prompt unless exactly one
   * entry is stored, store the answers, and export with the login obtained.
   */
  method RunIntended(disk: Disk, keychain: Credentials.Keychain, args: Args, flags: Flags, send: Transport,
                     answeredUser: string, answeredToken: string)
    returns (r: Outcome<Error>)
    requires disk.Valid()
    modifies disk, keychain
    ensures disk.Valid()
    ensures args.recipeId.None? && !flags.all ==>
              && r == Fail(CommandError(UsageMessage))
              && disk.State() == old(disk.State()) && keychain.entries == old(keychain.entries)
    ensures args.recipeId.Some? || flags.all ==>
              var login := Credentials.IntendedLogin(old(keychain.entries), answeredUser, answeredToken);
              && (|old(keychain.entries)| != 1 ==>
                    keychain.entries == Credentials.Store(old(keychain.entries), answeredUser, answeredToken))
              && (|old(keychain.entries)| == 1 ==> keychain.entries == old(keychain.entries))
              && ExportedWith(old(disk.State()), disk.State(), r, args, flags,
                              login.account, Credentials.SetupCookieJar(login.password), send)
  {
    if args.recipeId.None? && !flags.all {
      return Fail(CommandError(UsageMessage));
    }
    var login := keychain.CredentialsIntended(answeredUser, answeredToken);
    var jar := Credentials.SetupCookieJar(login.password);
    r := ExportWith(disk, args, flags, login.account, jar, send);
  }
}
