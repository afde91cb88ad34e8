/** The extension in jdanbrown/src/init.ts: the half-page terminal scroll
    commands and the commands that patch the workspace settings. */
module JdanbrownInit {
  import opened Wrappers
  import opened JsRuntime
  import opened VscodeHost

  // ---------------------------------------------------------------------
  // range
  // ---------------------------------------------------------------------

  /** Why `range(n)` throws: `n` is not an integer, or `Array(n)` rejects it
      as a length (negative, or above 2^32 - 1). */
  datatype RangeError = NotInteger | InvalidArrayLength

  /** `range(n)`: the array `[0, 1, ..., n-1]`. */
  function Range(n: real): (r: Result<seq<int>, RangeError>)
    ensures r == Err(NotInteger) <==> !IsInteger(n)
    ensures r == Err(InvalidArrayLength) <==> IsInteger(n) && (n < 0.0 || n > MaxArrayLength as real)
    ensures r.Ok? ==> |r.value| as real == n
    ensures r.Ok? ==> forall i :: 0 <= i < |r.value| ==> r.value[i] == i
  {
    if !IsInteger(n) then Err(NotInteger)
    else if n < 0.0 || n > MaxArrayLength as real then Err(InvalidArrayLength)
    else Ok(ArrayKeys(n.Floor))
  }

  // ---------------------------------------------------------------------
  // terminalScrollHalfPage
  // ---------------------------------------------------------------------

  /** How a command invocation ends: normally, or with an exception that the
      editor catches and reports. */
  datatype Completion = Normal | Thrown(error: RangeError)

  /** What one invocation of a scroll command does to the editor: the
      commands it executes, the warnings it logs, and how it ends. */
  datatype ScrollEffect = ScrollEffect(commands: seq<CommandId>, warnings: nat, completion: Completion)

  /** The row count assumed when the terminal does not report its dimensions. */
  const NumRowsIfUndefined: nat := 255

  /** `dims ? dims.rows : NUM_ROWS_IF_UNDEFINED`. */
  function Rows(dims: Option<TerminalDimensions>): nat {
    if dims.Some? then dims.value.rows else NumRowsIfUndefined
  }

  /** `Math.floor(rows / 2)`. */
  function HalfPage(rows: nat): real {
    Floor(rows as real / 2.0)
  }

  /** The lookup table `{'down': ..., 'up': ...}[direction]`. */
  function ScrollCommand(direction: Direction): CommandId {
    match direction
    case Up => ScrollUpCommand
    case Down => ScrollDownCommand
  }

  /** The effect of `terminalScrollHalfPage(direction)` when `active` is the
      active terminal. */
  function TerminalScrollHalfPageEffect(active: Option<Terminal>, direction: Direction): ScrollEffect {
    match active
    case None => ScrollEffect([], 0, Normal)
    case Some(terminal) =>
      var warnings := if terminal.dimensions.None? then 1 else 0;
      match Range(HalfPage(Rows(terminal.dimensions)))
      case Err(e) => ScrollEffect([], warnings, Thrown(e))
      case Ok(keys) => ScrollEffect(Repeated(ScrollCommand(direction), |keys|), warnings, Normal)
  }

  /** `terminalScrollHalfPage(direction)`: one scroll command per key of
      `range(Math.floor(rows / 2))`, appended to the editor's command trace. */
  method TerminalScrollHalfPage(host: Workbench, direction: Direction) returns (completion: Completion)
    modifies host`commands, host`warnings
    ensures var effect := TerminalScrollHalfPageEffect(host.activeTerminal, direction);
      && host.commands == old(host.commands) + effect.commands
      && host.warnings == old(host.warnings) + effect.warnings
      && completion == effect.completion
  {
    var terminal := host.activeTerminal;
    if terminal.None? {
      return Normal;
    }
    var dims := terminal.value.dimensions;
    if dims.None? {
      host.Warn();
    }
    var rows := Rows(dims);
    var keys := Range(HalfPage(rows));
    ghost var warnings := if dims.None? then 1 else 0;
    if keys.Err? {
      return Thrown(keys.error);
    }
    var command := ScrollCommand(direction);
    for k := 0 to |keys.value|
      invariant host.commands == old(host.commands) + Repeated(command, k)
      invariant host.warnings == old(host.warnings) + warnings
    {
      host.ExecuteCommand(command);
    }
    return Normal;
  }

  /** `Math.floor(rows / 2)` is the integer half of the row count. */
  lemma HalfPageIsHalfTheRows(rows: nat)
    ensures HalfPage(rows) == (rows / 2) as real
  {
    var q := rows / 2;
    var half := rows as real / 2.0;
    assert rows == 2 * q || rows == 2 * q + 1;
    assert rows as real == 2.0 * q as real || rows as real == 2.0 * q as real + 1.0;
    assert q as real <= half < q as real + 1.0;
    var f := half.Floor;
    assert f as real <= half < f as real + 1.0;
    assert f <= q && q <= f;
  }

  /** 255 rows give 127 steps, 10 give 5, 1 and 0 give none. */
  lemma HalfPageExamples()
    ensures HalfPage(255) == 127.0 && HalfPage(10) == 5.0 && HalfPage(1) == 0.0 && HalfPage(0) == 0.0
  {
  }

  /** Without an active terminal the command does nothing at all. */
  lemma ScrollWithoutTerminalIsNoop(direction: Direction)
    ensures TerminalScrollHalfPageEffect(None, direction) == ScrollEffect([], 0, Normal)
  {
  }

  /** A warning is logged exactly when the terminal reports no dimensions;
      the reported row count is used when there is one, and 255 otherwise. */
  lemma ScrollWarnsIffNoDimensions(terminal: Terminal, direction: Direction)
    ensures TerminalScrollHalfPageEffect(Some(terminal), direction).warnings == (if terminal.dimensions.None? then 1 else 0)
    ensures terminal.dimensions.None? ==> Rows(terminal.dimensions) == 255
    ensures terminal.dimensions.Some? ==> Rows(terminal.dimensions) == terminal.dimensions.value.rows
  {
  }

  /** With a terminal, the command issues exactly `floor(rows / 2)` scroll
      commands, unless that count is beyond what `Array(n)` accepts, in
      which case it throws before issuing any. */
  lemma {:induction false} ScrollStepCount(terminal: Terminal, direction: Direction)
    ensures var effect := TerminalScrollHalfPageEffect(Some(terminal), direction);
      var rows := Rows(terminal.dimensions);
      && (effect.completion == Normal <==> rows / 2 <= MaxArrayLength)
      && (effect.completion == Normal ==> |effect.commands| == rows / 2)
      && (effect.completion != Normal ==> effect.commands == [] && effect.completion == Thrown(InvalidArrayLength))
  {
    var rows := Rows(terminal.dimensions);
    HalfPageIsHalfTheRows(rows);
    var keys := Range(HalfPage(rows));
    if keys.Ok? {
      RepeatedContents(ScrollCommand(direction), |keys.value|);
    }
  }

  /** Every command issued is the scroll command of the requested direction;
      one invocation never issues the other direction's. */
  lemma {:induction false} ScrollFollowsDirection(active: Option<Terminal>, direction: Direction)
    ensures var effect := TerminalScrollHalfPageEffect(active, direction);
      && (forall i :: 0 <= i < |effect.commands| ==> effect.commands[i] == ScrollCommand(direction))
      && (direction == Up ==> ScrollDownCommand !in effect.commands)
      && (direction == Down ==> ScrollUpCommand !in effect.commands)
  {
    if active.Some? {
      var keys := Range(HalfPage(Rows(active.value.dimensions)));
      if keys.Ok? {
        RepeatedContents(ScrollCommand(direction), |keys.value|);
      }
    }
  }

  /** With 10 rows, scrolling up issues five scroll-up commands; without
      dimensions, scrolling down issues 127 scroll-down commands and one
      warning; with 0 rows, nothing happens. */
  lemma ScrollExamples()
    ensures TerminalScrollHalfPageEffect(Some(Terminal(Some(TerminalDimensions(10, 80)))), Up)
      == ScrollEffect([ScrollUpCommand, ScrollUpCommand, ScrollUpCommand, ScrollUpCommand, ScrollUpCommand], 0, Normal)
    ensures var effect := TerminalScrollHalfPageEffect(Some(Terminal(None)), Down);
      effect.commands == Repeated(ScrollDownCommand, 127) && effect.warnings == 1 && effect.completion == Normal
    ensures TerminalScrollHalfPageEffect(Some(Terminal(Some(TerminalDimensions(0, 80)))), Down) == ScrollEffect([], 0, Normal)
  {
    HalfPageExamples();
    var keys := Range(HalfPage(Rows(Some(TerminalDimensions(10, 80)))));
    assert keys.Ok? && |keys.value| == 5;
    assert Repeated(ScrollUpCommand, 5)
      == [ScrollUpCommand, ScrollUpCommand, ScrollUpCommand, ScrollUpCommand, ScrollUpCommand];
    ScrollStepCount(Terminal(None), Down);
  }

  // ---------------------------------------------------------------------
  // Workspace settings patches
  // ---------------------------------------------------------------------

  const GlyphMargin: string := "editor.glyphMargin"
  const Folding: string := "editor.folding"
  const CellMarker: string := "jupyter.interactiveWindow.cellMarker.default"
  const LanguageServer: string := "python.languageServer"

  /** The workspace settings after `jdanbrown.editor.toggleGutter`: each of
      the two gutter settings is set to the negation of its current
      truthiness; nothing else changes. */
  function GutterToggled(workspace: map<string, Value>, inherited: map<string, Value>): (r: map<string, Value>)
    ensures r.Keys == workspace.Keys + {GlyphMargin, Folding}
    ensures forall k :: k in workspace && k != GlyphMargin && k != Folding ==> r[k] == workspace[k]
    ensures r[GlyphMargin].Bool? && r[GlyphMargin].b == !Truthy(Effective(workspace, inherited, GlyphMargin))
    ensures r[Folding].Bool? && r[Folding].b == !Truthy(Effective(workspace, inherited, Folding))
  {
    workspace[GlyphMargin := Bool(!Truthy(Effective(workspace, inherited, GlyphMargin)))]
             [Folding := Bool(!Truthy(Effective(workspace, inherited, Folding)))]
  }

  /** `jdanbrown.editor.toggleGutter`. */
  method ToggleGutter(config: WorkspaceConfiguration)
    modifies config`workspace
    ensures config.workspace == GutterToggled(old(config.workspace), config.inherited)
  {
    config.Update(GlyphMargin, Some(Bool(!Truthy(config.Get(GlyphMargin)))));
    config.Update(Folding, Some(Bool(!Truthy(config.Get(Folding)))));
  }

  /** After a toggle, the value the editor sees for each gutter setting has
      the opposite truthiness; an unset setting becomes `true`. */
  lemma GutterToggleFlips(workspace: map<string, Value>, inherited: map<string, Value>)
    ensures var r := GutterToggled(workspace, inherited);
      && Truthy(Effective(r, inherited, GlyphMargin)) == !Truthy(Effective(workspace, inherited, GlyphMargin))
      && Truthy(Effective(r, inherited, Folding)) == !Truthy(Effective(workspace, inherited, Folding))
    ensures GlyphMargin !in workspace && GlyphMargin !in inherited ==>
      GutterToggled(workspace, inherited)[GlyphMargin] == Bool(true)
    ensures Folding !in workspace && Folding !in inherited ==>
      GutterToggled(workspace, inherited)[Folding] == Bool(true)
  {
  }

  /** Toggling twice gives back the workspace settings exactly when both
      gutter settings were already booleans there. */
  lemma GutterToggleTwice(workspace: map<string, Value>, inherited: map<string, Value>)
    ensures GutterToggled(GutterToggled(workspace, inherited), inherited) == workspace
      <==> (GlyphMargin in workspace && workspace[GlyphMargin].Bool?
            && Folding in workspace && workspace[Folding].Bool?)
  {
  }

  /** The workspace settings after `jdanbrown.fixWorkspaceSetting.jupyter.cellMarker`. */
  function CellMarkerFixed(workspace: map<string, Value>): (r: map<string, Value>)
    ensures r.Keys == workspace.Keys + {CellMarker}
    ensures r[CellMarker] == Str("# %%")
    ensures forall k :: k in workspace && k != CellMarker ==> r[k] == workspace[k]
  {
    workspace[CellMarker := Str("# %%")]
  }

  /** `jdanbrown.fixWorkspaceSetting.jupyter.cellMarker`. */
  method FixCellMarker(config: WorkspaceConfiguration)
    modifies config`workspace
    ensures config.workspace == CellMarkerFixed(old(config.workspace))
  {
    config.Update(CellMarker, Some(Str("# %%")));
  }

  /** The cell-marker fix is idempotent, and afterwards the editor sees the
      marker `# %%` whatever the inherited settings say. */
  lemma CellMarkerFixIdempotent(workspace: map<string, Value>, inherited: map<string, Value>)
    ensures CellMarkerFixed(CellMarkerFixed(workspace)) == CellMarkerFixed(workspace)
    ensures Effective(CellMarkerFixed(workspace), inherited, CellMarker) == Some(Str("# %%"))
  {
  }

  /** The workspace settings after `jdanbrown.python.pylance.disable`. */
  function PylanceDisabled(workspace: map<string, Value>): (r: map<string, Value>)
    ensures r.Keys == workspace.Keys + {LanguageServer}
    ensures r[LanguageServer] == Str("None")
    ensures forall k :: k in workspace && k != LanguageServer ==> r[k] == workspace[k]
  {
    workspace[LanguageServer := Str("None")]
  }

  /** The workspace settings after `jdanbrown.python.pylance.undisable`. */
  function PylanceUndisabled(workspace: map<string, Value>): (r: map<string, Value>)
    ensures r.Keys == workspace.Keys - {LanguageServer}
    ensures forall k :: k in r ==> r[k] == workspace[k]
  {
    workspace - {LanguageServer}
  }

  /** `jdanbrown.python.pylance.disable`. */
  method DisablePylance(config: WorkspaceConfiguration)
    modifies config`workspace
    ensures config.workspace == PylanceDisabled(old(config.workspace))
  {
    config.Update(LanguageServer, Some(Str("None")));
  }

  /** `jdanbrown.python.pylance.undisable`. */
  method UndisablePylance(config: WorkspaceConfiguration)
    modifies config`workspace
    ensures config.workspace == PylanceUndisabled(old(config.workspace))
  {
    config.Update(LanguageServer, None);
  }

  /** Both Pylance commands are idempotent, the later of the two wins, and
      after undisabling the editor falls back to the inherited language server. */
  lemma PylanceCommandsLastWins(workspace: map<string, Value>, inherited: map<string, Value>)
    ensures PylanceDisabled(PylanceDisabled(workspace)) == PylanceDisabled(workspace)
    ensures PylanceUndisabled(PylanceUndisabled(workspace)) == PylanceUndisabled(workspace)
    ensures PylanceDisabled(PylanceUndisabled(workspace)) == PylanceDisabled(workspace)
    ensures PylanceUndisabled(PylanceDisabled(workspace)) == PylanceUndisabled(workspace)
    ensures Effective(PylanceDisabled(workspace), inherited, LanguageServer) == Some(Str("None"))
    ensures Effective(PylanceUndisabled(workspace), inherited, LanguageServer)
      == (if LanguageServer in inherited then Some(inherited[LanguageServer]) else None)
  {
  }
}
