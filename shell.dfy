/** The interactive shell of `main.go`: a text input for the query and a result
    table, one of which has the focus; a theme that turns to the error colours
    when a query fails; and the viewport size that the terminal reports.

    The terminal program replaces its model with the one `Update` returns, so
    the model is a single object that `Update` changes in place. The text input
    and the table are value types in Go and are datatypes here, updated by
    copying; the styles are shared by reference and are an object. */
module Shell {
  import opened Common
  import Text
  import Database
  import Helpers
  import Styles

  /** The keys the shell reacts to; every other key is `OtherKey`. */
  datatype Key = Tab | Enter | Esc | CtrlC | OtherKey

  /** The messages `Update` receives. */
  datatype Msg = WindowSize(width: int, height: int) | KeyPress(key: Key) | ErrMsg(error: string) | OtherMsg

  /** The command `Update` hands back: nothing, or quit the program. */
  datatype Cmd = NoCmd | Quit

  /** The state of the text input widget that the shell uses. */
  datatype TextInput = TextInput(
    value: string,
    placeholder: string,
    focused: bool,
    prompt: Styles.Style,
    cursor: Styles.Style)

  /** The state of the table widget that the shell uses. */
  datatype Table = Table(
    columns: seq<Helpers.Column>,
    rows: seq<seq<string>>,
    height: int,
    focused: bool,
    header: Styles.Style,
    selected: Styles.Style)

  /** The table before the first query: no columns, no rows, not focused. */
  const NoTable: Table := Table([], [], 0, false, Styles.Plain, Styles.Plain)

  /** What `View` puts on screen: a placeholder until the size is known, then a
      title line, the text input, the table when it is shown, and the error panel
      when there is an error. */
  datatype Screen = Initializing | Frame(title: string, showTable: bool, errorPanel: Option<string>)

  function Min(a: int, b: int): (m: int) { if a <= b then a else b }

  class Model {
    const databasePath: string
    const styles: Styles.Styles
    var err: Option<string>
    var textInput: TextInput
    var table: Table
    var viewportWidth: int
    var viewportHeight: int
    var ready: bool

    /** The styles agree with their theme, and exactly one of the two widgets has
        the focus. */
    predicate Valid()
      reads this, styles
    {
      styles.Valid() && textInput.focused != table.focused
    }

    /** The theme shows whether there is an error. */
    predicate ThemeMatchesError()
      reads this, styles
    {
      (err.None? ==> styles.IsNormal()) && (err.Some? ==> styles.IsError())
    }

    /** `initialModel`: normal theme, the text input focused, no table, no error,
        size not yet known. */
    constructor (databasePath: string)
      ensures Valid() && ThemeMatchesError() && fresh(styles)
      ensures this.databasePath == databasePath
      ensures !ready && err == None && viewportWidth == 0 && viewportHeight == 0
      ensures textInput == TextInput([], "Write SQL...", true, styles.highlight, styles.highlight)
      ensures table == NoTable
    {
      var s := new Styles.Styles();
      this.databasePath := databasePath;
      styles := s;
      err := None;
      textInput := TextInput([], "Write SQL...", true, s.highlight, s.highlight);
      table := NoTable;
      viewportWidth := 0;
      viewportHeight := 0;
      ready := false;
    }

    /** The outcome of running the query currently in the text input. */
    function Submission(host: Database.Host): (x: Database.Execution)
      reads this
    {
      Database.ExecOutcome(databasePath, Text.TrimSpace(textInput.value), host)
    }

    /** `Update`: react to one message. */
    method Update(msg: Msg, host: Database.Host) returns (cmd: Cmd)
      requires Valid()
      modifies this, styles
      ensures Valid()
      ensures cmd == Quit <==> msg == KeyPress(Esc) || msg == KeyPress(CtrlC)
      ensures old(ready) ==> ready
      ensures !msg.ErrMsg? && old(ThemeMatchesError()) ==> ThemeMatchesError()
      // A resize records the usable size and marks the model ready.
      ensures msg.WindowSize? ==>
        && ready && viewportWidth == msg.width - 2 && viewportHeight == msg.height - 8
        && err == old(err) && textInput == old(textInput) && table == old(table)
        && unchanged(styles)
      // Tab moves the focus to the other widget and leaves the table's content alone.
      ensures msg == KeyPress(Tab) ==>
        && table == old(table).(focused := !old(table.focused))
        && textInput == old(textInput).(focused := old(table.focused),
                                         prompt := if old(table.focused) then styles.highlight else styles.background)
        && err == old(err) && ready == old(ready)
        && viewportWidth == old(viewportWidth) && viewportHeight == old(viewportHeight)
        && unchanged(styles)
      // Enter with a blank query does nothing.
      ensures msg == KeyPress(Enter) && Text.TrimSpace(old(textInput.value)) == [] ==>
        unchanged(this) && unchanged(styles)
      // Enter with a failing query shows the error and keeps the table and the focus.
      ensures msg == KeyPress(Enter) && Text.TrimSpace(old(textInput.value)) != []
              && old(Submission(host)).err.Some? ==>
        && err == old(Submission(host)).err
        && styles.IsError()
        && textInput == old(textInput).(prompt := styles.highlight, cursor := styles.highlight)
        && table == (if |old(table.rows)| > 0
                     then old(table).(header := styles.tableHeader, selected := styles.tableRow)
                     else old(table))
        && ready == old(ready) && viewportWidth == old(viewportWidth) && viewportHeight == old(viewportHeight)
      // Enter with a successful query clears the error and shows the result in a focused table.
      ensures msg == KeyPress(Enter) && Text.TrimSpace(old(textInput.value)) != []
              && old(Submission(host)).err.None? ==>
        var x := old(Submission(host));
        && err == None
        && styles.IsNormal()
        && textInput == old(textInput).(focused := false, prompt := styles.background, cursor := styles.highlight)
        && table == Table(Helpers.Layout(x.headers, x.rows, viewportWidth), x.rows,
                          Min(|x.rows| + 1, viewportHeight), true, styles.tableHeader, styles.tableRow)
        && ready == old(ready) && viewportWidth == old(viewportWidth) && viewportHeight == old(viewportHeight)
      // An error message is recorded as it is; the theme is not touched.
      ensures msg.ErrMsg? ==>
        && err == Some(msg.error)
        && textInput == old(textInput) && table == old(table) && ready == old(ready)
        && viewportWidth == old(viewportWidth) && viewportHeight == old(viewportHeight)
        && unchanged(styles)
      // Quitting leaves the model as it is.
      ensures msg == KeyPress(Esc) || msg == KeyPress(CtrlC) ==> unchanged(this) && unchanged(styles)
      // Every other message goes on to the widgets, which may edit the typed text;
      // the error, the table's content, the focus, the size and the theme stay.
      ensures msg == KeyPress(OtherKey) || msg == OtherMsg ==>
        && err == old(err) && table == old(table) && ready == old(ready)
        && viewportWidth == old(viewportWidth) && viewportHeight == old(viewportHeight)
        && textInput.focused == old(textInput.focused) && textInput.placeholder == old(textInput.placeholder)
        && textInput.prompt == old(textInput.prompt) && textInput.cursor == old(textInput.cursor)
        && unchanged(styles)
    {
      match msg
      case WindowSize(width, height) =>
        Resize(width, height);
        return NoCmd;
      case KeyPress(key) =>
        match key {
        case Tab =>
          ToggleFocus();
          return NoCmd;
        case Enter =>
          Submit(host);
          return NoCmd;
        case Esc =>
          return Quit;
        case CtrlC =>
          return Quit;
        case OtherKey =>
          return NoCmd;
        }
      case ErrMsg(e) =>
        err := Some(e);
        return NoCmd;
      case OtherMsg =>
        return NoCmd;
    }

    /** The `WindowSizeMsg` branch of `Update`. */
    method Resize(width: int, height: int)
      modifies this
      ensures ready && viewportWidth == width - 2 && viewportHeight == height - 8
      ensures err == old(err) && textInput == old(textInput) && table == old(table)
    {
      if !ready {
        ready := true;
      }
      viewportWidth := width - 2;
      viewportHeight := height - 8;
    }

    /** The Tab branch of `Update`. */
    method ToggleFocus()
      modifies this
      ensures table == old(table).(focused := !old(table.focused))
      ensures textInput == old(textInput).(focused := old(table.focused),
                                           prompt := if old(table.focused) then styles.highlight else styles.background)
      ensures err == old(err) && ready == old(ready)
      ensures viewportWidth == old(viewportWidth) && viewportHeight == old(viewportHeight)
    {
      if table.focused {
        table := table.(focused := false);
        textInput := textInput.(focused := true);
        textInput := textInput.(prompt := styles.highlight);
      } else {
        table := table.(focused := true);
        textInput := textInput.(focused := false);
        textInput := textInput.(prompt := styles.background);
      }
    }

    /** The Enter branch of `Update`. */
    method Submit(host: Database.Host)
      requires Valid()
      modifies this, styles
      ensures Valid()
      ensures ready == old(ready) && viewportWidth == old(viewportWidth) && viewportHeight == old(viewportHeight)
      ensures Text.TrimSpace(old(textInput.value)) == [] ==> unchanged(this) && unchanged(styles)
      ensures Text.TrimSpace(old(textInput.value)) != [] && old(Submission(host)).err.Some? ==>
        && err == old(Submission(host)).err
        && styles.IsError()
        && textInput == old(textInput).(prompt := styles.highlight, cursor := styles.highlight)
        && table == (if |old(table.rows)| > 0
                     then old(table).(header := styles.tableHeader, selected := styles.tableRow)
                     else old(table))
      ensures Text.TrimSpace(old(textInput.value)) != [] && old(Submission(host)).err.None? ==>
        var x := old(Submission(host));
        && err == None
        && styles.IsNormal()
        && textInput == old(textInput).(focused := false, prompt := styles.background, cursor := styles.highlight)
        && table == Table(Helpers.Layout(x.headers, x.rows, viewportWidth), x.rows,
                          Min(|x.rows| + 1, viewportHeight), true, styles.tableHeader, styles.tableRow)
    {
      var query := Text.TrimSpace(textInput.value);
      if query == [] {
        return;
      }
      var headers, rows, e := Database.ExecCmd(databasePath, query, host);
      if e.Some? {
        err := e;
        styles.Error();
        textInput := textInput.(prompt := styles.highlight);
        textInput := textInput.(cursor := styles.highlight);
        if |table.rows| > 0 {
          table := table.(header := styles.tableHeader, selected := styles.tableRow);
        }
        return;
      } else {
        err := None;
        styles.Reset();
        textInput := textInput.(prompt := styles.highlight);
        textInput := textInput.(cursor := styles.highlight);
      }
      textInput := textInput.(focused := false);
      textInput := textInput.(prompt := styles.background);

      var height := |rows| + 1;
      if height > viewportHeight {
        height := viewportHeight;
      }
      var columns := Helpers.CreateColumns(headers, rows, viewportWidth);
      var tableRows := Helpers.CreateRows(rows);
      table := Table(columns, tableRows, height, true, styles.tableHeader, styles.tableRow);
    }

    /** `View`: what is on screen for the current state. */
    function View(): (screen: Screen)
      reads this
      ensures screen.Initializing? <==> !ready
      ensures screen.Frame? ==> (screen.title == "An error has occured" <==> err.Some?)
      ensures screen.Frame? ==> (screen.title == "SQLite Shell" <==> err.None?)
      ensures screen.Frame? ==> (screen.showTable <==> |table.columns| > 0 && err.None?)
      ensures screen.Frame? ==> (screen.errorPanel.Some? <==> err.Some?)
      ensures screen.Frame? && err.Some? ==> screen.errorPanel == err
    {
      if !ready then Initializing
      else
        var title := if err.Some? then "An error has occured" else "SQLite Shell";
        var showTable := |table.columns| > 0 && err.None?;
        var panel := if err.Some? then Some(err.value) else None;
        Frame(title, showTable, panel)
    }
  }

  /** Two Tabs in a row give the focus back to the widget that had it, and leave the
      table, the error and the size as they were. */
  method TabTwice(m: Model, host: Database.Host)
    requires m.Valid()
    modifies m, m.styles
    ensures m.Valid()
    ensures m.textInput.focused == old(m.textInput.focused) && m.table == old(m.table)
    ensures m.err == old(m.err) && m.ready == old(m.ready)
    ensures m.viewportWidth == old(m.viewportWidth) && m.viewportHeight == old(m.viewportHeight)
    ensures unchanged(m.styles)
  {
    var _ := m.Update(KeyPress(Tab), host);
    var _ := m.Update(KeyPress(Tab), host);
  }

  /** Submitting "SELECT 1" to an engine that answers with the column `id` and the
      single row `1` shows that row in a focused table under the normal theme. */
  method SubmitSelectOne(m: Model, host: Database.Host)
    requires m.Valid()
    requires m.textInput.value == "SELECT 1"
    requires Database.ResolvePath(m.databasePath, host).Ok?
    requires host.run(Database.Argv(Database.ResolvePath(m.databasePath, host).value, "SELECT 1"))
      == Database.RunOutcome(None, "id\r\n1\r\n", "")
    modifies m, m.styles
    ensures m.Valid() && m.ThemeMatchesError()
    ensures m.err == None && m.styles.IsNormal()
    ensures m.table.focused && !m.textInput.focused
    ensures m.table.rows == [["1"]]
    ensures |m.table.columns| == 1 && m.table.columns[0].title == "ID"
  {
    assert Text.TrimSpace("SELECT 1") == "SELECT 1";
    Database.ParseCsvExample();
    var _ := m.Update(KeyPress(Enter), host);
    assert Text.ToUpper("id") == "ID";
  }

  /** Submitting a query the engine cannot run turns the theme to the error colours,
      records a non-empty error, keeps the focus where it was, and, once the size
      is known, shows the error panel instead of the table. */
  method SubmitFailing(m: Model, host: Database.Host)
    requires m.Valid()
    requires Text.TrimSpace(m.textInput.value) != []
    requires Database.ResolvePath(m.databasePath, host).Ok?
    requires host.run(Database.Argv(Database.ResolvePath(m.databasePath, host).value,
                                    Text.TrimSpace(m.textInput.value))).err.Some?
    modifies m, m.styles
    ensures m.Valid() && m.ThemeMatchesError()
    ensures m.styles.IsError() && m.err.Some? && m.err.value != []
    ensures m.textInput.focused == old(m.textInput.focused) && m.table.focused == old(m.table.focused)
    ensures m.table.rows == old(m.table.rows) && m.table.columns == old(m.table.columns)
    ensures m.ready ==> m.View().Frame? && m.View().errorPanel == m.err && !m.View().showTable
  {
    Database.ExecErrorLabels(m.databasePath, Text.TrimSpace(m.textInput.value), host);
    var _ := m.Update(KeyPress(Enter), host);
  }
}
