/**
 * The `sessions` command: list the brewing sessions of one machine, or the
 * most recent sessions of the account, and write for each session its summary
 * as pretty-printed JSON and its data log as CSV or JSON, under a folder named
 * after the machine.
 */
module Sessions {
  import opened Wrappers
  import opened Js
  import Paths
  import opened FileSystem
  import opened Picobrew
  import Credentials

  const DefaultFormat := "csv"
  const DefaultOutputFolder := "sessions"
  const DefaultNumber := 20
  const MachineFailedMessage := "failed to fetch machine sessions"
  const RecentFailedMessage := "failed to fetch sessions"
  const DatalogFailedMessage := "failed to fetch json recipe"

  // Endpoints, relative to the service's base URL
  const RecentSessionsPath := "API/Rest/RestAPI.cshtml?type=BrewHouseSessionRequest&id="
  const MachineSessionsPath := "API/Rest/RestAPI.cshtml?type=BrewHouseMachineSessionRequest&id="
  const CsvExportPath := "Members/Logs/Loghouse2/CsvExport.cshtml?command=generate&filter=ZSessionLogs&id="
  const CsvExportSuffix := "&output=csv"
  const LogHousePath := "API/Rest/RestAPI.cshtml?type=LogHouseRequest&id="

  /** The parsed flags the command reads. */
  datatype Flags = Flags(format: string, outputFolder: string, number: int)

  /** The flags when none is given on the command line. */
  const DefaultFlags := Flags(DefaultFormat, DefaultOutputFolder, DefaultNumber)

  datatype Args = Args(machineGuid: Option<string>)

  /** How the command ends: `this.error(message)`, or a TypeError nobody catches. */
  datatype Error = CommandError(message: string) | TypeError(message: string)

  // ---------------------------------------------------------------------------
  // File layout

  /** The folder name of a session: its `Alias` and `MachineType`, separated by a space. */
  function MachineName(session: Value): (name: string)
    requires !Nullish(session)
    ensures var alias := Display(Prop(session, "Alias"));
            && |alias| < |name| && name[..|alias|] == alias && name[|alias|] == ' '
            && name[|alias| + 1..] == Display(Prop(session, "MachineType"))
    ensures '/' !in Display(Prop(session, "Alias")) && '/' !in Display(Prop(session, "MachineType")) ==> '/' !in name
  {
    Display(Prop(session, "Alias")) + " " + Display(Prop(session, "MachineType"))
  }

  /** `<id>-session.json`: the id, then a fixed suffix; an id without '/' gives a plain file name. */
  function SummaryName(id: Value): (name: string)
    ensures |Display(id)| < |name| && name[..|Display(id)|] == Display(id)
    ensures name[|Display(id)|..] == "-session.json"
    ensures '/' !in Display(id) ==> '/' !in name
  {
    Display(id) + "-session.json"
  }

  /** `<id>-datalog.<format>`: the id, a fixed infix, the format. */
  function DatalogName(id: Value, format: string): (name: string)
    ensures |Display(id)| < |name| && name[..|Display(id)|] == Display(id)
    ensures name[|Display(id)|..] == "-datalog." + format
    ensures '/' !in Display(id) && '/' !in format ==> '/' !in name
  {
    Display(id) + "-datalog." + format
  }

  /** The path `writeOutputFile` writes to: the output folder, the machine folder, the file. */
  function OutputPath(flags: Flags, machine: string, filename: string): string {
    flags.outputFolder + "/" + (machine + "/" + filename)
  }

  function OutputFile(flags: Flags, machine: string, filename: string): Path {
    Paths.Segments(OutputPath(flags, machine, filename))
  }

  /** With plain names, a session file lies two levels below the output folder. */
  lemma OutputFileLayout(flags: Flags, machine: string, filename: string)
    requires '/' !in flags.outputFolder && '/' !in machine && '/' !in filename
    ensures OutputFile(flags, machine, filename) == [flags.outputFolder, machine, filename]
  {
    Paths.SegmentsOfSlashJoin(flags.outputFolder, machine + "/" + filename);
    Paths.SegmentsOfSlashJoin(machine, filename);
    Paths.SegmentsOfName(flags.outputFolder);
    Paths.SegmentsOfName(machine);
    Paths.SegmentsOfName(filename);
  }

  /** Two file names in the same machine folder name the same file only when they are equal. */
  lemma OutputFileInjective(flags: Flags, machine: string, a: string, b: string)
    ensures OutputFile(flags, machine, a) == OutputFile(flags, machine, b) <==> a == b
  {
    Paths.JoinSegmentsOfSegments(OutputPath(flags, machine, a));
    Paths.JoinSegmentsOfSegments(OutputPath(flags, machine, b));
    var pre := flags.outputFolder + "/" + (machine + "/");
    assert OutputPath(flags, machine, a) == pre + a;
    assert OutputPath(flags, machine, b) == pre + b;
    assert a == (pre + a)[|pre|..];
    assert b == (pre + b)[|pre|..];
  }

  /** The summary name and the data log name of a session differ right after the id. */
  lemma NamesDiffer(id: Value, format: string)
    ensures SummaryName(id) != DatalogName(id, format)
  {
    assert SummaryName(id)[|Display(id)| + 1] != DatalogName(id, format)[|Display(id)| + 1];
  }

  /** The data log of a session never overwrites the session's summary. */
  lemma SummaryAndDatalogDiffer(flags: Flags, machine: string, id: Value)
    ensures OutputFile(flags, machine, SummaryName(id)) != OutputFile(flags, machine, DatalogName(id, flags.format))
  {
    NamesDiffer(id, flags.format);
    OutputFileInjective(flags, machine, SummaryName(id), DatalogName(id, flags.format));
  }

  /**
   * A data log name is never a summary name, whichever sessions the two come
   * from: the json suffixes differ where "datalog" and "session" do, the csv
   * one in its last letter.
   */
  lemma DatalogNameIsNoSummaryName(id1: Value, id2: Value, format: string)
    requires format == "csv" || format == "json"
    ensures DatalogName(id1, format) != SummaryName(id2)
  {
    var d := DatalogName(id1, format);
    var s := SummaryName(id2);
    if format == "csv" {
      assert d[|d| - 1] == 'v' && s[|s| - 1] == 'n';
    } else {
      assert d[|d| - 12] == 'd' && s[|s| - 12] == 's';
    }
  }

  /**
   * With plain names, no session's data log lands on any session's summary,
   * so the order in which summaries and data logs are written does not
   * change the files.
   */
  lemma DatalogNeverOverwritesASummary(flags: Flags, machine1: string, id1: Value, machine2: string, id2: Value)
    requires flags.format == "csv" || flags.format == "json"
    requires '/' !in flags.outputFolder && '/' !in machine1 && '/' !in machine2
    requires '/' !in Display(id1) && '/' !in Display(id2)
    ensures OutputFile(flags, machine1, DatalogName(id1, flags.format)) != OutputFile(flags, machine2, SummaryName(id2))
  {
    OutputFileLayout(flags, machine1, DatalogName(id1, flags.format));
    OutputFileLayout(flags, machine2, SummaryName(id2));
    DatalogNameIsNoSummaryName(id1, id2, flags.format);
  }

  /** A plain file name is the last component of its path, below the machine folder. */
  lemma OutputFileInFolder(flags: Flags, machine: string, filename: string)
    requires '/' !in filename
    ensures OutputFile(flags, machine, filename) == Paths.Segments(flags.outputFolder) + Paths.Segments(machine) + [filename]
    ensures Dirname(OutputFile(flags, machine, filename)) == Paths.Segments(flags.outputFolder) + Paths.Segments(machine)
  {
    Paths.SegmentsOfSlashJoin(flags.outputFolder, machine + "/" + filename);
    Paths.SegmentsOfSlashJoin(machine, filename);
    Paths.SegmentsOfName(filename);
  }

  /** The summary and the data log of a session lie in the same folder. */
  lemma SummaryAndDatalogSiblings(flags: Flags, machine: string, id: Value)
    requires '/' !in Display(id) && '/' !in flags.format
    ensures Dirname(OutputFile(flags, machine, SummaryName(id)))
            == Dirname(OutputFile(flags, machine, DatalogName(id, flags.format)))
            == Paths.Segments(flags.outputFolder) + Paths.Segments(machine)
  {
    assert '/' !in SummaryName(id);
    assert '/' !in DatalogName(id, flags.format);
    OutputFileInFolder(flags, machine, SummaryName(id));
    OutputFileInFolder(flags, machine, DatalogName(id, flags.format));
  }

  // ---------------------------------------------------------------------------
  // Requests

  /** The four session kinds the recent-sessions request asks for. */
  const IncludeFlags := ["IncludeZSession", "IncludePicoSession", "IncludePicoFermSession", "IncludeZymaticSession"]

  /** The request for the account's most recent sessions of every kind, at most `number` of them. */
  function FetchRecentSessions(user: string, number: int, jar: seq<Cookie>): (o: Options)
    ensures o.path == RecentSessionsPath + user && o.cookieJar == jar
    ensures o.body.JsonBody? && o.responseType == "json"
    ensures Get(o.body.json, "ProfileID") == Some(Str(user))
    ensures forall flag :: flag in IncludeFlags ==> Get(o.body.json, flag) == Some(Num(1))
    ensures Get(o.body.json, "NumResults") == Some(Num(number))
    ensures Get(o.body.json, "NMostRecent") == Some(Num(number))
  {
    Options(RecentSessionsPath + user, jar, [],
            JsonBody(Obj(map["ProfileID" := Str(user),
                          "IncludeZSession" := Num(1),
                          "IncludePicoSession" := Num(1),
                          "IncludePicoFermSession" := Num(1),
                          "IncludeZymaticSession" := Num(1),
                          "NumResults" := Num(number),
                          "NMostRecent" := Num(number)])),
            "json")
  }

  /** The request for the sessions of one machine; the machine type is always sent as "2". */
  function FetchMachineSessions(machineGuid: string, user: string, jar: seq<Cookie>): (o: Options)
    ensures o.path == MachineSessionsPath + user && o.cookieJar == jar
    ensures o.body.JsonBody? && o.responseType == "json"
    ensures Get(o.body.json, "ProfileID") == Some(Str(user))
    ensures Get(o.body.json, "MachineUID") == Some(Str(machineGuid))
    ensures Get(o.body.json, "MachineType") == Some(Str("2"))
  {
    Options(MachineSessionsPath + user, jar, [],
            JsonBody(Obj(map["ProfileID" := Str(user), "MachineUID" := Str(machineGuid), "MachineType" := Str("2")])),
            "json")
  }

  /** The request for a session's data log as CSV text; it has no body. */
  function FetchSessionRawDatalog(sessionId: Value, jar: seq<Cookie>): (o: Options)
    ensures o.path == CsvExportPath
                      + Display(sessionId) + CsvExportSuffix
    ensures o.cookieJar == jar && o.body == NoBody && o.responseType == "text"
  {
    Options(CsvExportPath
            + Display(sessionId) + CsvExportSuffix, jar, [], NoBody, "text")
  }

  /** The request for a session's data log as JSON: the session id as sent, type 3, from the start. */
  function FetchSessionJsonDatalog(sessionId: Value, jar: seq<Cookie>): (o: Options)
    ensures o.path == LogHousePath + Display(sessionId) && o.cookieJar == jar
    ensures o.body.JsonBody? && o.responseType == "json"
    ensures Get(o.body.json, "ID") == Some(sessionId)
    ensures Get(o.body.json, "Type") == Some(Num(3))
    ensures Get(o.body.json, "Update") == Some(Num(0)) && Get(o.body.json, "Metric") == Some(Num(0))
    ensures Get(o.body.json, "LastUpdateID") == Some(Num(-1))
    ensures Get(o.body.json, "LastUpdateStep") == Some(Str(""))
  {
    Options(LogHousePath + Display(sessionId), jar, [],
            JsonBody(Obj(map["ID" := sessionId, "Type" := Num(3), "Update" := Num(0), "Metric" := Num(0),
                          "LastUpdateID" := Num(-1), "LastUpdateStep" := Str("")])),
            "json")
  }

  // ---------------------------------------------------------------------------
  // Writing one file

  /** `writeOutputFile`: create the machine folder as needed, then write the file. */
  method WriteOutputFile(disk: Disk, flags: Flags, machine: string, filename: string, body: Content)
    requires disk.Valid()
    modifies disk
    ensures disk.Valid()
    ensures disk.State() == WriteEffect(old(disk.State()), OutputFile(flags, machine, filename), body)
  {
    var filePath := machine + "/" + filename;
    var path := Paths.Segments(flags.outputFolder + "/" + filePath);
    disk.EnsureDirectoryExistence(path);
    var _ := disk.WriteFile(path, body);
  }

  // ---------------------------------------------------------------------------
  // The data log of one session

  /** What `exportDatalogToFile` does for one session: the file it writes and how it ends. */
  datatype Datalog = Datalog(write: Option<(Path, Content)>, outcome: Outcome<Error>)

  function DatalogWrites(d: Datalog): seq<(Path, Content)> {
    if d.write.Some? then [d.write.value] else []
  }

  /** The data log request for the format: CSV text for csv, JSON otherwise. */
  function DatalogFetch(flags: Flags, sessionId: Value, jar: seq<Cookie>, send: Transport): Reply {
    if flags.format == "csv" then Post(send, FetchSessionRawDatalog(sessionId, jar))
    else Post(send, FetchSessionJsonDatalog(sessionId, jar))
  }

  /**
   * `exportDatalogToFile`: csv writes the text received, json writes the
   * received value pretty-printed, any other format does nothing; a failed
   * request is reported as "failed to fetch json recipe" and writes nothing.
   */
  function DatalogExport(flags: Flags, sessionId: Value, machine: string, jar: seq<Cookie>, send: Transport): (d: Datalog)
    ensures flags.format != "csv" && flags.format != "json" ==> d == Datalog(None, Pass)
    ensures d.write.Some? <==> d.outcome.Pass? && (flags.format == "csv" || flags.format == "json")
    ensures d.write.Some? ==> d.write.value.0 == OutputFile(flags, machine, DatalogName(sessionId, flags.format))
  {
    var file := OutputFile(flags, machine, DatalogName(sessionId, flags.format));
    if flags.format != "csv" && flags.format != "json" then Datalog(None, Pass)
    else match DatalogFetch(flags, sessionId, jar, send)
      case Thrown(_) => Datalog(None, Fail(CommandError(DatalogFailedMessage)))
      case Ok(response) =>
        Datalog(Some((file, if flags.format == "csv" then Raw(response.body) else Pretty(response.body))), Pass)
  }

  /**
   * A data log is written exactly when the format is csv or json and its
   * request succeeds, under `<id>-datalog.<format>`: the raw text for csv,
   * the value pretty-printed for json; it fails exactly when the request fails.
   */
  lemma DatalogExportWrites(flags: Flags, sessionId: Value, machine: string, jar: seq<Cookie>, send: Transport)
    ensures var d := DatalogExport(flags, sessionId, machine, jar, send);
            var known := flags.format == "csv" || flags.format == "json";
            && (d.write.Some? <==> known && DatalogFetch(flags, sessionId, jar, send).Ok?)
            && (d.outcome.Fail? <==> known && DatalogFetch(flags, sessionId, jar, send).Thrown?)
            && (d.outcome.Fail? ==> d.outcome.error == CommandError(DatalogFailedMessage))
            && (d.write.Some? ==>
                  var body := DatalogFetch(flags, sessionId, jar, send).response.body;
                  && d.write.value.0 == OutputFile(flags, machine, DatalogName(sessionId, flags.format))
                  && d.write.value.1 == (if flags.format == "csv" then Raw(body) else Pretty(body)))
  {
  }

  method ExportDatalogToFile(disk: Disk, flags: Flags, sessionId: Value, machine: string, user: string,
                             jar: seq<Cookie>, send: Transport)
    returns (r: Outcome<Error>)
    requires disk.Valid()
    modifies disk
    ensures disk.Valid()
    ensures r == DatalogExport(flags, sessionId, machine, jar, send).outcome
    ensures disk.State() == ApplyWrites(old(disk.State()), DatalogWrites(DatalogExport(flags, sessionId, machine, jar, send)))
  {
    ghost var before := disk.State();
    assert ApplyWrites(before, []) == before;
    var filename := DatalogName(sessionId, flags.format);
    r := Pass;
    if flags.format == "csv" {
      var response := Post(send, FetchSessionRawDatalog(sessionId, jar));
      if response.Thrown? {
        return Fail(CommandError(DatalogFailedMessage));
      }
      WriteOutputFile(disk, flags, machine, filename, Raw(response.response.body));
    } else if flags.format == "json" {
      var response := Post(send, FetchSessionJsonDatalog(sessionId, jar));
      if response.Thrown? {
        return Fail(CommandError(DatalogFailedMessage));
      }
      WriteOutputFile(disk, flags, machine, filename, Pretty(response.response.body));
    }
  }

  // ---------------------------------------------------------------------------
  // Every session of the list

  /** Every entry is neither undefined nor null. */
  predicate AllPresent(views: seq<Value>) {
    forall i :: 0 <= i < |views| ==> !Nullish(views[i])
  }

  /** The summary of a session: the session itself, pretty-printed, as `<id>-session.json`. */
  function SummaryWrite(flags: Flags, session: Value): (Path, Content)
    requires !Nullish(session)
  {
    (OutputFile(flags, MachineName(session), SummaryName(Prop(session, "SessionID"))), Pretty(session))
  }

  function SessionDatalog(flags: Flags, session: Value, jar: seq<Cookie>, send: Transport): Datalog
    requires !Nullish(session)
  {
    DatalogExport(flags, Prop(session, "SessionID"), MachineName(session), jar, send)
  }

  /** The file a session's data log goes to. */
  function DatalogFile(flags: Flags, session: Value): Path
    requires !Nullish(session)
  {
    OutputFile(flags, MachineName(session), DatalogName(Prop(session, "SessionID"), flags.format))
  }

  /** What one session writes: its summary, then its data log if any. */
  function SessionWrites(flags: Flags, session: Value, jar: seq<Cookie>, send: Transport): seq<(Path, Content)>
    requires !Nullish(session)
  {
    [SummaryWrite(flags, session)] + DatalogWrites(SessionDatalog(flags, session, jar, send))
  }

  /** What a list of sessions writes, in order. */
  function ViewsWrites(flags: Flags, views: seq<Value>, jar: seq<Cookie>, send: Transport): seq<(Path, Content)>
    requires AllPresent(views)
    decreases |views|
  {
    if views == [] then []
    else ViewsWrites(flags, views[..|views| - 1], jar, send) + SessionWrites(flags, views[|views| - 1], jar, send)
  }

  /** A session whose data log arrives writes two files: its summary, then its data log. */
  lemma SessionWritesFetched(flags: Flags, session: Value, jar: seq<Cookie>, send: Transport)
    requires !Nullish(session)
    requires flags.format == "csv" || flags.format == "json"
    requires DatalogFetch(flags, Prop(session, "SessionID"), jar, send).Ok?
    ensures |SessionWrites(flags, session, jar, send)| == 2
    ensures SessionWrites(flags, session, jar, send)[0] == SummaryWrite(flags, session)
    ensures SessionWrites(flags, session, jar, send)[1].0 == DatalogFile(flags, session)
  {
    DatalogExportWrites(flags, Prop(session, "SessionID"), MachineName(session), jar, send);
  }

  /**
   * Each session writes one file or two: the summary always, the data log
   * when there is one; a format other than csv and json writes summaries only.
   */
  lemma {:induction false} ViewsWritesCount(flags: Flags, views: seq<Value>, jar: seq<Cookie>, send: Transport)
    requires AllPresent(views)
    ensures |views| <= |ViewsWrites(flags, views, jar, send)| <= 2 * |views|
    ensures flags.format != "csv" && flags.format != "json" ==> |ViewsWrites(flags, views, jar, send)| == |views|
    decreases |views|
  {
    if views != [] {
      var front := views[..|views| - 1];
      assert AllPresent(front);
      ViewsWritesCount(flags, front, jar, send);
    }
  }

  /** Every listed session's data log request succeeds. */
  predicate AllDatalogsArrive(flags: Flags, views: seq<Value>, jar: seq<Cookie>, send: Transport)
    requires AllPresent(views)
  {
    forall i :: 0 <= i < |views| ==> DatalogFetch(flags, Prop(views[i], "SessionID"), jar, send).Ok?
  }

  /**
   * When the format is csv or json and every data log request succeeds, the
   * sessions write exactly two files each.
   */
  lemma {:induction false} TwoFilesPerSession(flags: Flags, views: seq<Value>, jar: seq<Cookie>, send: Transport)
    requires AllPresent(views)
    requires flags.format == "csv" || flags.format == "json"
    requires AllDatalogsArrive(flags, views, jar, send)
    ensures |ViewsWrites(flags, views, jar, send)| == 2 * |views|
    decreases |views|
  {
    if views != [] {
      var n := |views| - 1;
      PrefixArrives(flags, views, n, jar, send);
      TwoFilesPerSession(flags, views[..n], jar, send);
      SessionWritesFetched(flags, views[n], jar, send);
    }
  }

  /**
   * Under the same conditions, session k's summary is the write at position
   * 2k and its data log the write at 2k + 1.
   */
  lemma SessionFilesAt(flags: Flags, views: seq<Value>, k: nat, jar: seq<Cookie>, send: Transport)
    requires AllPresent(views) && k < |views|
    requires flags.format == "csv" || flags.format == "json"
    requires AllDatalogsArrive(flags, views, jar, send)
    ensures 2 * k + 1 < |ViewsWrites(flags, views, jar, send)|
    ensures ViewsWrites(flags, views, jar, send)[2 * k] == SummaryWrite(flags, views[k])
    ensures ViewsWrites(flags, views, jar, send)[2 * k + 1].0 == DatalogFile(flags, views[k])
  {
    PrefixArrives(flags, views, k, jar, send);
    TwoFilesPerSession(flags, views[..k], jar, send);
    ViewsWritesSnoc(flags, views, k, jar, send);
    SessionWritesFetched(flags, views[k], jar, send);
    ViewsWritesPrefix(flags, views, k + 1, jar, send);
    var done := ViewsWrites(flags, views[..k + 1], jar, send);
    var session := SessionWrites(flags, views[k], jar, send);
    assert done == ViewsWrites(flags, views[..k], jar, send) + session;
    assert done[2 * k] == session[0] && done[2 * k + 1] == session[1];
  }

  /** The sessions before k are present and have their data logs arrive when all sessions do. */
  lemma PrefixArrives(flags: Flags, views: seq<Value>, k: nat, jar: seq<Cookie>, send: Transport)
    requires AllPresent(views) && k <= |views|
    requires AllDatalogsArrive(flags, views, jar, send)
    ensures AllPresent(views[..k]) && AllDatalogsArrive(flags, views[..k], jar, send)
  {
    assert forall i :: 0 <= i < k ==> views[..k][i] == views[i];
  }

  /** What a prefix of the sessions writes is a prefix of what all of them write. */
  lemma {:induction false} ViewsWritesPrefix(flags: Flags, views: seq<Value>, j: nat, jar: seq<Cookie>, send: Transport)
    requires AllPresent(views) && j <= |views|
    ensures AllPresent(views[..j])
    ensures ViewsWrites(flags, views[..j], jar, send) <= ViewsWrites(flags, views, jar, send)
    decreases |views|
  {
    if j < |views| {
      var n := |views| - 1;
      ViewsWritesPrefix(flags, views[..n], j, jar, send);
      assert views[..n][..j] == views[..j];
    } else {
      assert views[..j] == views;
    }
  }

  /** Extending the processed prefix by one session applies that session's writes after the others. */
  lemma ViewsWritesStep(s: FsState, flags: Flags, views: seq<Value>, i: nat, jar: seq<Cookie>, send: Transport)
    requires i < |views| && AllPresent(views[..i]) && !Nullish(views[i])
    ensures AllPresent(views[..i + 1])
    ensures ApplyWrites(s, ViewsWrites(flags, views[..i + 1], jar, send))
            == ApplyWrites(ApplyWrites(s, ViewsWrites(flags, views[..i], jar, send)), SessionWrites(flags, views[i], jar, send))
  {
    ViewsWritesSnoc(flags, views, i, jar, send);
    ApplyWritesAppend(s, ViewsWrites(flags, views[..i], jar, send), SessionWrites(flags, views[i], jar, send));
  }

  lemma ViewsWritesSnoc(flags: Flags, views: seq<Value>, i: nat, jar: seq<Cookie>, send: Transport)
    requires i < |views| && AllPresent(views[..i]) && !Nullish(views[i])
    ensures AllPresent(views[..i + 1])
    ensures ViewsWrites(flags, views[..i + 1], jar, send)
            == ViewsWrites(flags, views[..i], jar, send) + SessionWrites(flags, views[i], jar, send)
  {
    assert views[..i + 1][..i] == views[..i];
    assert views[..i + 1][i] == views[i];
  }

  /**
   * The `forEach` over the listed sessions: for each one its summary, then its
   * data log. Reading `SessionID` of an undefined or null entry throws, which
   * ends the loop with the list's failure message; a failed data log does not
   * stop it, since it runs detached.
   */
  method ExportSessionViews(disk: Disk, flags: Flags, views: seq<Value>, user: string, jar: seq<Cookie>,
                            send: Transport, failMessage: string)
    returns (r: Outcome<Error>)
    requires disk.Valid()
    modifies disk
    ensures disk.Valid()
    ensures r.Fail? <==> NonNullishPrefix(views) < |views|
    ensures r.Fail? ==> r.error == CommandError(failMessage)
    ensures AllPresent(views[..NonNullishPrefix(views)])
    ensures disk.State() == ApplyWrites(old(disk.State()), ViewsWrites(flags, views[..NonNullishPrefix(views)], jar, send))
  {
    var n := NonNullishPrefix(views);
    var i := 0;
    r := Pass;
    assert views[..0] == [];
    assert ApplyWrites(old(disk.State()), []) == old(disk.State());
    while i < |views| && r.Pass?
      invariant 0 <= i <= n
      invariant AllPresent(views[..i])
      invariant r.Fail? ==> i == n < |views| && r.error == CommandError(failMessage)
      invariant disk.Valid()
      invariant disk.State() == ApplyWrites(old(disk.State()), ViewsWrites(flags, views[..i], jar, send))
      decreases |views| - i, if r.Pass? then 1 else 0
    {
      if Nullish(views[i]) {
        assert i == n;
        r := Fail(CommandError(failMessage));
      } else {
        ExportSession(disk, flags, views[i], user, jar, send);
        ViewsWritesStep(old(disk.State()), flags, views, i, jar, send);
        i := i + 1;
      }
    }
  }

  /** The `forEach` callback for one session: its summary, then its data log. */
  method ExportSession(disk: Disk, flags: Flags, session: Value, user: string, jar: seq<Cookie>, send: Transport)
    requires disk.Valid() && !Nullish(session)
    modifies disk
    ensures disk.Valid()
    ensures disk.State() == ApplyWrites(old(disk.State()), SessionWrites(flags, session, jar, send))
  {
    var id := Prop(session, "SessionID");
    var machine := MachineName(session);
    WriteOutputFile(disk, flags, machine, SummaryName(id), Pretty(session));
    assert disk.State() == ApplyWrites(old(disk.State()), [SummaryWrite(flags, session)]);
    var _ := ExportDatalogToFile(disk, flags, id, machine, user, jar, send);
    ApplyWritesAppend(old(disk.State()), [SummaryWrite(flags, session)], DatalogWrites(SessionDatalog(flags, session, jar, send)));
  }

  // ---------------------------------------------------------------------------
  // The command

  /** A machine id was given: present and not empty. */
  predicate MachineGiven(args: Args) {
    args.machineGuid.Some? && args.machineGuid.value != ""
  }

  /** The list request: one machine's sessions when a machine id is given, the recent ones otherwise. */
  function ListRequest(args: Args, flags: Flags, user: string, jar: seq<Cookie>): (o: Options)
    ensures o.path == (if MachineGiven(args) then MachineSessionsPath else RecentSessionsPath) + user
    ensures o.cookieJar == jar && o.responseType == "json"
  {
    if MachineGiven(args) then FetchMachineSessions(args.machineGuid.value, user, jar)
    else FetchRecentSessions(user, flags.number, jar)
  }

  function ListFailedMessage(args: Args): string {
    if MachineGiven(args) then MachineFailedMessage else RecentFailedMessage
  }

  /**
   * The list request names the machine when one is given, and otherwise asks
   * for `--number` sessions, 20 unless given.
   */
  lemma ListRequestChoice(args: Args, flags: Flags, user: string, jar: seq<Cookie>)
    ensures var o := ListRequest(args, flags, user, jar);
            && o.body.JsonBody? && Get(o.body.json, "ProfileID") == Some(Str(user))
            && (MachineGiven(args) ==> Get(o.body.json, "MachineUID") == Some(Str(args.machineGuid.value))
                                       && ListFailedMessage(args) == MachineFailedMessage)
            && (!MachineGiven(args) ==> Get(o.body.json, "NMostRecent") == Some(Num(flags.number))
                                        && ListFailedMessage(args) == RecentFailedMessage)
            && (!MachineGiven(args) && flags == DefaultFlags ==> Get(o.body.json, "NumResults") == Some(Num(20)))
  {
  }

  /** The `SessionViews` array of the response body; anything else makes the command fail. */
  function SessionViews(body: Value): (views: Option<seq<Value>>)
    ensures views.Some? <==> !Nullish(body) && Prop(body, "SessionViews").Arr?
    ensures views.Some? ==> Get(body, "SessionViews") == Some(Arr(views.value))
  {
    match Get(body, "SessionViews")
    case Some(Arr(views)) => Some(views)
    case _ => None
  }

  /**
   * What the command does once it holds a user id and a cookie jar, from the
   * disk it found to the disk it leaves: a failed list request or a response
   * without a `SessionViews` array fails with the list's message and writes
   * nothing; otherwise the sessions before the first undefined or null entry
   * are exported, in order.
   */
  predicate ListedAndExported(before: FsState, after: FsState, r: Outcome<Error>, args: Args, flags: Flags,
                              user: string, jar: seq<Cookie>, send: Transport)
  {
    var failed := Fail(CommandError(ListFailedMessage(args)));
    match Post(send, ListRequest(args, flags, user, jar))
    case Thrown(_) => r == failed && after == before
    case Ok(response) =>
      match SessionViews(response.body)
      case None => r == failed && after == before
      case Some(views) =>
        && (r.Fail? <==> NonNullishPrefix(views) < |views|)
        && (r.Fail? ==> r == failed)
        && AllPresent(views[..NonNullishPrefix(views)])
        && after == ApplyWrites(before, ViewsWrites(flags, views[..NonNullishPrefix(views)], jar, send))
  }

  /** The part of `run` after the credential is read: list the sessions, then export each one. */
  method ListAndExport(disk: Disk, args: Args, flags: Flags, user: string, jar: seq<Cookie>, send: Transport)
    returns (r: Outcome<Error>)
    requires disk.Valid()
    modifies disk
    ensures disk.Valid()
    ensures ListedAndExported(old(disk.State()), disk.State(), r, args, flags, user, jar, send)
  {
    var failMessage := if MachineGiven(args) then MachineFailedMessage else RecentFailedMessage;
    var response;
    if MachineGiven(args) {
      response := Post(send, FetchMachineSessions(args.machineGuid.value, user, jar));
    } else {
      response := Post(send, FetchRecentSessions(user, flags.number, jar));
    }
    if response.Thrown? {
      return Fail(CommandError(failMessage));
    }
    var views := SessionViews(response.response.body);
    if views.None? {
      return Fail(CommandError(failMessage));
    }
    r := ExportSessionViews(disk, flags, views.value, user, jar, send, failMessage);
  }

  /**
   * `run` as written: `credentials()` reads the keychain, whose first entry
   * becomes the cookie jar, and the sessions are listed and exported. With an
   * empty keychain `credentials()` throws before any request, and the keychain
   * is never written.
   */
  method Run(disk: Disk, keychain: Credentials.Keychain, args: Args, flags: Flags, send: Transport)
    returns (r: Outcome<Error>)
    requires disk.Valid()
    modifies disk
    ensures disk.Valid()
    ensures unchanged(keychain)
    ensures keychain.entries == [] ==>
              r == Fail(TypeError(Credentials.NoEntryMessage)) && disk.State() == old(disk.State())
    ensures keychain.entries != [] ==>
              var first := keychain.entries[0];
              ListedAndExported(old(disk.State()), disk.State(), r, args, flags,
                                first.account, Credentials.SetupCookieJar(Some(first.password)), send)
  {
    var login := keychain.Credentials();
    if login.Failure? {
      return Fail(TypeError(login.error.message));
    }
    var jar := Credentials.SetupCookieJar(login.value.password);
    r := ListAndExport(disk, args, flags, login.value.account, jar, send);
  }

  /**
   * `run` over `credentials()` as evidently intended: prompt unless exactly one
   * entry is stored, store the answers, and list and export with the login
   * obtained.
   */
  method RunIntended(disk: Disk, keychain: Credentials.Keychain, args: Args, flags: Flags, send: Transport,
                     answeredUser: string, answeredToken: string)
    returns (r: Outcome<Error>)
    requires disk.Valid()
    modifies disk, keychain
    ensures disk.Valid()
    ensures var login := Credentials.IntendedLogin(old(keychain.entries), answeredUser, answeredToken);
            && (|old(keychain.entries)| != 1 ==>
                  keychain.entries == Credentials.Store(old(keychain.entries), answeredUser, answeredToken))
            && (|old(keychain.entries)| == 1 ==> keychain.entries == old(keychain.entries))
            && ListedAndExported(old(disk.State()), disk.State(), r, args, flags,
                                 login.account, Credentials.SetupCookieJar(login.password), send)
  {
    var login := keychain.CredentialsIntended(answeredUser, answeredToken);
    var jar := Credentials.SetupCookieJar(login.password);
    r := ListAndExport(disk, args, flags, login.account, jar, send);
  }
}
