/** The query pipeline of `internal/database`: resolve the database path, run the
    `sqlite3` command line tool, and split its CSV output into a header record and
    data rows. Everything the pipeline asks of the operating system (environment
    expansion, the home directory, path joining, running a process) is a field of
    `Host`, so the pipeline itself is deterministic. */
module Database {
  import opened Common
  import Text
  import Csv

  /** What running a process reports: the error `Run` returned (nil when the
      process exited with status 0) and what it wrote to its two output streams. */
  datatype RunOutcome = RunOutcome(err: Option<string>, stdout: string, stderr: string)

  /** The operating system as the pipeline sees it: `os.ExpandEnv`,
      `os.UserHomeDir`, `filepath.Join`, and `exec.Command(...).Run` applied to an
      argument vector. */
  datatype Host = Host(
    expandEnv: string -> string,
    userHomeDir: Result<string, string>,
    join: (string, string) -> string,
    run: seq<string> -> RunOutcome)

  /** A query result: the header record and the data rows. */
  datatype QueryResult = QueryResult(headers: seq<string>, rows: seq<seq<string>>)

  /** The command line of the query engine: CSV output with a header line, the
      database file and the query. */
  function Argv(path: string, query: string): (argv: seq<string>)
    ensures |argv| == 5 && argv[0] == "sqlite3" && argv[3] == path && argv[4] == query
  {
    ["sqlite3", "-csv", "-header", path, query]
  }

  /** True when the expanded path starts with the home shorthand and has more
      after it; a bare "~" or "~/" does not qualify. */
  predicate IsHomeRelative(p: string)
  {
    |p| > 2 && p[..2] == "~/"
  }

  /** `resolvePath`: expand environment references, then replace a leading "~/"
      by the home directory. */
  function ResolvePath(path: string, host: Host): (r: Result<string, string>)
    ensures var p := host.expandEnv(path);
      && (!IsHomeRelative(p) ==> r == Ok(p))
      && (IsHomeRelative(p) && host.userHomeDir.Ok? ==> r == Ok(host.join(host.userHomeDir.value, p[2..])))
      && (IsHomeRelative(p) && host.userHomeDir.Err? ==> r == Err("reading home dir: " + host.userHomeDir.error))
  {
    var p := host.expandEnv(path);
    if IsHomeRelative(p) then
      match host.userHomeDir
      case Err(e) => Err("reading home dir: " + e)
      case Ok(home) => Ok(host.join(home, p[2..]))
    else
      Ok(p)
  }

  /** The home shorthand: "~/data/app.db" with home directory "/home/u" resolves
      to "/home/u/data/app.db" under a joining that puts one slash between. */
  lemma ResolveHomeExample(host: Host)
    requires host.expandEnv("~/data/app.db") == "~/data/app.db"
    requires host.userHomeDir == Ok("/home/u")
    requires host.join("/home/u", "data/app.db") == "/home/u" + "/" + "data/app.db"
    ensures ResolvePath("~/data/app.db", host) == Ok("/home/u/data/app.db")
  {
    var p := "~/data/app.db";
    assert p[..2] == "~/" && p[2..] == "data/app.db";
    assert IsHomeRelative(p);
    assert "/home/u" + "/" + "data/app.db" == "/home/u/data/app.db";
  }

  /** A bare "~" or "~/" is not the home shorthand: it passes through unchanged and
      the home directory is never consulted, so its lookup failing does not matter. */
  lemma ResolveBareTilde(path: string, host: Host)
    requires host.expandEnv(path) == "~" || host.expandEnv(path) == "~/"
    ensures ResolvePath(path, host) == Ok(host.expandEnv(path))
  {
  }

  /** `parseCSV`: the first record read is the header, the remaining ones are the
      rows; no records at all is an empty result, not an error. */
  function ParseCsv(input: string): (r: Result<QueryResult, string>)
    ensures Csv.ReadAll(input).Err? ==> r == Err("reading CSV: " + Csv.Message(Csv.ReadAll(input).error))
    ensures r.Ok? <==> Csv.ReadAll(input).Ok?
    ensures Csv.ReadAll(input) == Ok([]) ==> r == Ok(QueryResult([], []))
    ensures Csv.ReadAll(input).Ok? && |Csv.ReadAll(input).value| > 0 ==>
      r == Ok(QueryResult(Csv.ReadAll(input).value[0], Csv.ReadAll(input).value[1..]))
    ensures r.Ok? ==> Csv.ReadAll(input).Ok? && Csv.ReadAll(input).value == (if r.value.headers == [] then [] else [r.value.headers]) + r.value.rows
    ensures r.Ok? ==> forall k :: 0 <= k < |r.value.rows| ==> |r.value.rows[k]| == |r.value.headers|
  {
    match Csv.ReadAll(input)
    case Err(e) => Err("reading CSV: " + Csv.Message(e))
    case Ok(records) =>
      if |records| == 0 then Ok(QueryResult([], []))
      else
        Csv.ReadAllUniform(input);
        assert records == [records[0]] + records[1..];
        Ok(QueryResult(records[0], records[1..]))
  }

  /** The output `sqlite3 -csv -header` writes for a result: the header line, then
      one line per row, each ended by "\r\n", with a field quoted only when it
      has to be. */
  function Serialize(q: QueryResult): (out: string)
    requires |q.headers| >= 1
    requires forall k :: 0 <= k < |q.rows| ==> |q.rows[k]| == |q.headers|
  {
    Csv.Encode([q.headers] + q.rows, "\r\n")
  }

  /** Parsing inverts writing, for any result with at least one column whose cells
      hold no carriage return. */
  lemma ParseCsvRoundTrip(q: QueryResult)
    requires |q.headers| >= 1
    requires forall k :: 0 <= k < |q.rows| ==> |q.rows[k]| == |q.headers|
    requires Csv.NoCarriageReturn([q.headers] + q.rows)
    ensures ParseCsv(Serialize(q)) == Ok(q)
  {
    var records := [q.headers] + q.rows;
    assert forall k :: 1 <= k < |records| ==> records[k] == q.rows[k - 1];
    Csv.ReadAllEncode(records, "\r\n");
    assert records[1..] == q.rows;
  }

  /** Empty output (a statement that returns nothing) is an empty result. */
  lemma ParseCsvEmpty()
    ensures ParseCsv("") == Ok(QueryResult([], []))
  {
  }

  lemma ExampleNormalize()
    ensures Csv.Normalize("id\r\n1\r\n") == "id\n1\n"
  {
    var t := "id\r\n1\r\n";
    assert t[2..] == "\r\n1\r\n" && t[4..] == "1\r\n" && t[5..] == "\r\n";
    assert Csv.Normalize("\r\n") == "\n";
    assert Csv.Normalize("1\r\n") == "1\n";
    assert Csv.Normalize("\r\n1\r\n") == "\n1\n";
  }

  lemma ExampleHeader()
    ensures Csv.ReadFields("id\n1\n") == Ok(Csv.Scan(["id"], "1\n"))
  {
    var s := "id\n1\n";
    assert Csv.FieldEnd(s) == 2;
    assert s[..2] == "id" && s[3..] == "1\n";
  }

  lemma ExampleRow()
    ensures Csv.Records("1\n", Some(1)) == Ok([["1"]])
  {
    var t := "1\n";
    assert Csv.FieldEnd(t) == 1;
    assert t[..1] == "1" && t[2..] == "";
    assert Csv.ReadFields(t) == Ok(Csv.Scan(["1"], ""));
    assert Csv.Records("", Some(1)) == Ok([]);
    assert [["1"]] + [] == [["1"]];
  }

  /** What `sqlite3 -csv -header` prints for `SELECT 1 AS id` (lines end in
      "\r\n") parses to the header `id` and the one row `1`. */
  lemma ParseCsvExample()
    ensures ParseCsv("id\r\n1\r\n") == Ok(QueryResult(["id"], [["1"]]))
  {
    ExampleRecords();
    var records: seq<seq<string>> := [["id"], ["1"]];
    assert Csv.ReadAll("id\r\n1\r\n") == Ok(records);
    assert |records| == 2 && records[0] == ["id"] && records[1..] == [["1"]];
    assert ParseCsv("id\r\n1\r\n") == Ok(QueryResult(records[0], records[1..]));
  }

  /** A one-column row whose value the engine writes as an empty field (a NULL)
      is an empty line, and the reader skips empty lines: the row is lost, and
      only the header remains. */
  lemma ParseCsvDropsEmptyRow()
    ensures ParseCsv("x\r\n\r\n") == Ok(QueryResult(["x"], []))
  {
    var t := "x\r\n\r\n";
    assert t[1..] == "\r\n\r\n" && t[3..] == "\r\n" && t[5..] == "";
    assert Csv.Normalize("\r\n") == "\n";
    assert Csv.Normalize("\r\n\r\n") == "\n\n";
    assert Csv.Normalize(t) == "x\n\n";
    var s := "x\n\n";
    assert Csv.FieldEnd(s) == 1;
    assert s[..1] == "x" && s[2..] == "\n";
    assert Csv.ReadFields(s) == Ok(Csv.Scan(["x"], "\n"));
    assert Csv.Records("\n", Some(1)) == Ok([]);
    assert s != [] && s[0] != '\n';
    assert Csv.Records(s, None) == Ok([["x"]] + []);
    assert [["x"]] + [] == [["x"]];
    assert Csv.ReadAll(t) == Ok([["x"]]);
    assert [["x"]][1..] == [];
  }

  lemma ExampleRecords()
    ensures Csv.ReadAll("id\r\n1\r\n") == Ok([["id"], ["1"]])
  {
    ExampleNormalize();
    ExampleHeader();
    ExampleRow();
    var s := "id\n1\n";
    assert s != [] && s[0] != '\n';
    assert Csv.Records(s, None) == Ok([["id"]] + [["1"]]);
    assert [["id"]] + [["1"]] == [["id"], ["1"]];
    assert Csv.ReadAll("id\r\n1\r\n") == Csv.Records(s, None);
  }

  /** The non-nil errors, in argument order. */
  function Present(errs: seq<Option<string>>): (msgs: seq<string>)
    ensures |msgs| <= |errs|
  {
    if errs == [] then []
    else if errs[|errs| - 1].Some? then Present(errs[..|errs| - 1]) + [errs[|errs| - 1].value]
    else Present(errs[..|errs| - 1])
  }

  lemma {:induction false} PresentEmptyIff(errs: seq<Option<string>>)
    ensures Present(errs) == [] <==> forall k :: 0 <= k < |errs| ==> errs[k].None?
  {
    if errs != [] {
      PresentEmptyIff(errs[..|errs| - 1]);
    }
  }

  /** What `formatErrors(context, errs...)` returns: nil when every error is nil,
      otherwise the context, a colon, and the messages joined by "; ". */
  function FormattedErrors(context: string, errs: seq<Option<string>>): (r: Option<string>)
    ensures r.None? <==> forall k :: 0 <= k < |errs| ==> errs[k].None?
    ensures r.Some? ==> StartsWith(r.value, context + ": ")
  {
    PresentEmptyIff(errs);
    var msgs := Present(errs);
    if |msgs| > 0 then Some(context + ": " + Text.Join(msgs, "; ")) else None
  }

  /** A single error is reported as "context: message". */
  lemma FormattedOne(context: string, m: string)
    ensures FormattedErrors(context, [Some(m)]) == Some(context + ": " + m)
  {
    assert [Some(m)][..0] == [];
  }

  /** Two errors are reported as "context: first; second", in argument order. */
  lemma FormattedTwo(context: string, m1: string, m2: string)
    ensures FormattedErrors(context, [Some(m1), Some(m2)]) == Some(context + ": " + m1 + "; " + m2)
  {
    assert [Some(m1), Some(m2)][..1] == [Some(m1)];
    assert [Some(m1)][..0] == [];
    assert Present([Some(m1), Some(m2)]) == [m1, m2];
    assert [m1, m2][..1] == [m1];
    assert Text.Join([m1, m2], "; ") == m1 + "; " + m2;
    assert context + ": " + (m1 + "; " + m2) == context + ": " + m1 + "; " + m2;
  }

  /** Nil errors do not change the report, wherever they stand. */
  lemma {:induction false} FormattedSkipsNil(context: string, errs: seq<Option<string>>, k: nat)
    requires k <= |errs|
    ensures FormattedErrors(context, errs[..k] + [None] + errs[k..]) == FormattedErrors(context, errs)
  {
    PresentInsertNone(errs, k);
  }

  lemma {:induction false} PresentInsertNone(errs: seq<Option<string>>, k: nat)
    requires k <= |errs|
    ensures Present(errs[..k] + [None] + errs[k..]) == Present(errs)
    decreases |errs|
  {
    var ins := errs[..k] + [None] + errs[k..];
    if k == |errs| {
      assert ins[..|ins| - 1] == errs;
    } else {
      var init := errs[..|errs| - 1];
      PresentInsertNone(init, k);
      assert ins[..|ins| - 1] == init[..k] + [None] + init[k..];
      assert ins[|ins| - 1] == errs[|errs| - 1];
    }
  }

  /** `formatErrors`: collects the messages of the non-nil errors in a loop and
      joins them under the context. */
  method FormatErrors(context: string, errs: seq<Option<string>>) returns (r: Option<string>)
    ensures r == FormattedErrors(context, errs)
  {
    var errMsgs: seq<string> := [];
    for i := 0 to |errs|
      invariant errMsgs == Present(errs[..i])
    {
      assert errs[..i + 1][..i] == errs[..i];
      if errs[i].Some? {
        errMsgs := errMsgs + [errs[i].value];
      }
    }
    assert errs[..|errs|] == errs;
    if |errMsgs| > 0 {
      r := Some(context + ": " + Text.Join(errMsgs, "; "));
    } else {
      r := None;
    }
  }

  /** What `ExecCmd` returns, in Go's order: headers, rows, error. */
  datatype Execution = Execution(headers: seq<string>, rows: seq<seq<string>>, err: Option<string>)

  /** The outcome of `ExecCmd(path, query)`: resolve the path, run the engine,
      parse its output; each failure is reported under the label of its stage and
      comes with no data. */
  function ExecOutcome(path: string, query: string, host: Host): (x: Execution)
    ensures x.err.Some? ==> x.headers == [] && x.rows == []
    ensures x.err.None? ==> forall k :: 0 <= k < |x.rows| ==> |x.rows[k]| == |x.headers|
  {
    match ResolvePath(path, host)
    case Err(e) =>
      FormattedOne("resolving path", e);
      Execution([], [], FormattedErrors("resolving path", [Some(e)]))
    case Ok(resolved) =>
      var run := host.run(Argv(resolved, query));
      if run.err.Some? then
        FormattedTwo("executing command", "exec: " + run.err.value, "sqlite3: " + run.stderr);
        Execution([], [], FormattedErrors("executing command",
                                          [Some("exec: " + run.err.value), Some("sqlite3: " + run.stderr)]))
      else
        match ParseCsv(run.stdout)
        case Err(e) =>
          FormattedOne("parsing data", e);
          Execution([], [], FormattedErrors("parsing data", [Some(e)]))
        case Ok(q) => Execution(q.headers, q.rows, None)
  }

  lemma PrefixOfAppend(a: string, b: string, c: string)
    ensures StartsWith(a + b + c, a + b)
  {
    assert (a + b + c)[..|a + b|] == a + b;
  }

  /** Every failure names the stage that failed: resolving the path (only the home
      directory lookup can fail), executing the command, or parsing its output. */
  lemma ExecErrorLabels(path: string, query: string, host: Host)
    ensures var x := ExecOutcome(path, query, host);
      x.err.Some? ==>
        || StartsWith(x.err.value, "resolving path: reading home dir: ")
        || StartsWith(x.err.value, "executing command: exec: ")
        || StartsWith(x.err.value, "parsing data: reading CSV: ")
  {
    var r := ResolvePath(path, host);
    if r.Err? {
      ResolveFailureLabel(path, host);
    } else {
      var run := host.run(Argv(r.value, query));
      if run.err.Some? {
        ExecFailureHasBothParts(path, query, host, r.value);
        PrefixOfAppend("executing command: exec: ", run.err.value, "; sqlite3: " + run.stderr);
        assert "executing command: exec: " + run.err.value + "; sqlite3: " + run.stderr
          == "executing command: exec: " + run.err.value + ("; sqlite3: " + run.stderr);
      } else {
        if ParseCsv(run.stdout).Err? {
          ParseFailureLabel(path, query, host, r.value);
          PrefixOfAppend("parsing data: reading CSV: ", Csv.Message(Csv.ReadAll(run.stdout).error), "");
          assert "parsing data: reading CSV: " + Csv.Message(Csv.ReadAll(run.stdout).error) + ""
            == "parsing data: reading CSV: " + Csv.Message(Csv.ReadAll(run.stdout).error);
        } else {
          ExecSuccessIsParse(path, query, host, r.value);
        }
      }
    }
  }

  lemma ResolveFailureLabel(path: string, host: Host)
    requires ResolvePath(path, host).Err?
    ensures ExecOutcome(path, "", host).err
      == Some("resolving path: reading home dir: " + host.userHomeDir.error)
    ensures forall query :: ExecOutcome(path, query, host) == ExecOutcome(path, "", host)
  {
    var e := ResolvePath(path, host).error;
    FormattedOne("resolving path", e);
    assert "resolving path" + ": " == "resolving path: ";
    assert "resolving path: " + "reading home dir: " == "resolving path: reading home dir: ";
    assert "resolving path" + ": " + ("reading home dir: " + host.userHomeDir.error)
      == "resolving path: reading home dir: " + host.userHomeDir.error;
  }

  /** The message a parse failure is formatted into. */
  lemma ParseFailureMessage(out: string)
    ensures ParseCsv(out).Err? ==>
      FormattedErrors("parsing data", [Some(ParseCsv(out).error)])
        == Some("parsing data: reading CSV: " + Csv.Message(Csv.ReadAll(out).error))
  {
    if ParseCsv(out).Err? {
      var m := Csv.Message(Csv.ReadAll(out).error);
      FormattedOne("parsing data", ParseCsv(out).error);
      assert "parsing data" + ": " == "parsing data: ";
      assert "parsing data: " + "reading CSV: " == "parsing data: reading CSV: ";
      assert "parsing data" + ": " + ("reading CSV: " + m) == "parsing data: reading CSV: " + m;
    }
  }

  /** After a clean run, output the reader rejects is reported under the parsing
      stage, with the reader's own message and no data. */
  lemma ParseFailureLabel(path: string, query: string, host: Host, resolved: string)
    requires ResolvePath(path, host) == Ok(resolved)
    requires host.run(Argv(resolved, query)).err.None?
    requires ParseCsv(host.run(Argv(resolved, query)).stdout).Err?
    ensures var out := host.run(Argv(resolved, query)).stdout;
      ExecOutcome(path, query, host)
        == Execution([], [], Some("parsing data: reading CSV: " + Csv.Message(Csv.ReadAll(out).error)))
  {
    ParseFailureMessage(host.run(Argv(resolved, query)).stdout);
  }

  /** A failed run is always reported with both parts, the process error and the
      engine's error stream, even when the latter is empty. */
  lemma ExecFailureHasBothParts(path: string, query: string, host: Host, resolved: string)
    requires ResolvePath(path, host) == Ok(resolved)
    requires host.run(Argv(resolved, query)).err.Some?
    ensures var run := host.run(Argv(resolved, query));
      ExecOutcome(path, query, host).err
        == Some("executing command: exec: " + run.err.value + "; sqlite3: " + run.stderr)
  {
    var run := host.run(Argv(resolved, query));
    var m1, m2 := "exec: " + run.err.value, "sqlite3: " + run.stderr;
    FormattedTwo("executing command", m1, m2);
    assert "executing command" + ": " == "executing command: ";
    assert "executing command: " + "exec: " == "executing command: exec: ";
    assert "; " + "sqlite3: " == "; sqlite3: ";
    assert "executing command" + ": " + m1 + "; " + m2
      == "executing command: exec: " + run.err.value + "; sqlite3: " + run.stderr;
  }

  /** A clean run yields exactly what parsing its standard output yields. */
  lemma ExecSuccessIsParse(path: string, query: string, host: Host, resolved: string)
    requires ResolvePath(path, host) == Ok(resolved)
    requires host.run(Argv(resolved, query)).err.None?
    ensures var out := host.run(Argv(resolved, query)).stdout;
      (ExecOutcome(path, query, host).err.None? <==> ParseCsv(out).Ok?)
      && (ParseCsv(out).Ok? ==>
            ExecOutcome(path, query, host)
              == Execution(ParseCsv(out).value.headers, ParseCsv(out).value.rows, None))
  {
    var out := host.run(Argv(resolved, query)).stdout;
    if ParseCsv(out).Err? {
      FormattedOne("parsing data", ParseCsv(out).error);
    }
  }

  /** `ExecCmd`: the pipeline as a sequence of steps, each failure returning
      early under its stage label. */
  method ExecCmd(path: string, query: string, host: Host)
    returns (headers: seq<string>, rows: seq<seq<string>>, err: Option<string>)
    ensures Execution(headers, rows, err) == ExecOutcome(path, query, host)
  {
    var resolved := ResolvePath(path, host);
    if resolved.Err? {
      err := FormatErrors("resolving path", [Some(resolved.error)]);
      return [], [], err;
    }
    var run := host.run(Argv(resolved.value, query));
    if run.err.Some? {
      err := FormatErrors("executing command", [Some("exec: " + run.err.value), Some("sqlite3: " + run.stderr)]);
      return [], [], err;
    }
    var parsed := ParseCsv(run.stdout);
    if parsed.Err? {
      err := FormatErrors("parsing data", [Some(parsed.error)]);
      return [], [], err;
    }
    return parsed.value.headers, parsed.value.rows, None;
  }
}
