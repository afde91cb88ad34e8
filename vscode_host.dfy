/** The slice of the editor's extension API that the extension uses, as
    state it can observe: the active terminal and its dimensions, a trace of
    the commands it executes, a count of the warnings it logs, and the
    settings store it reads and writes. */
module VscodeHost {
  import opened Wrappers

  /** The two directions of the half-page scroll commands. */
  datatype Direction = Up | Down

  /** `Terminal.dimensions`: rows and columns of the terminal's viewport. */
  datatype TerminalDimensions = TerminalDimensions(rows: nat, columns: nat)

  /** A terminal; its dimensions are `undefined` for persistent terminals
      restored after a window reload. */
  datatype Terminal = Terminal(dimensions: Option<TerminalDimensions>)

  /** The identifier of a command passed to `vscode.commands.executeCommand`. */
  type CommandId = string

  const ScrollUpCommand: CommandId := "workbench.action.terminal.scrollUp"
  const ScrollDownCommand: CommandId := "workbench.action.terminal.scrollDown"

  /** The trace of n executions of the same command. */
  function Repeated(id: CommandId, n: nat): seq<CommandId> {
    if n == 0 then [] else Repeated(id, n - 1) + [id]
  }

  /** A repeated command trace has n entries, every one of them `id`. */
  lemma {:induction false} RepeatedContents(id: CommandId, n: nat)
    ensures |Repeated(id, n)| == n
    ensures forall i :: 0 <= i < n ==> Repeated(id, n)[i] == id
  {
    if n > 0 {
      RepeatedContents(id, n - 1);
    }
  }

  /** The editor window as the extension sees it: the active terminal (set by
      the user, read here), every command executed so far, and how many
      warnings have gone to the console. */
  class Workbench {
    var activeTerminal: Option<Terminal>
    var commands: seq<CommandId>
    var warnings: nat

    constructor (activeTerminal: Option<Terminal>)
      ensures this.activeTerminal == activeTerminal
      ensures commands == [] && warnings == 0
    {
      this.activeTerminal := activeTerminal;
      commands := [];
      warnings := 0;
    }

    /** `vscode.commands.executeCommand(id)`, fire and forget. */
    method ExecuteCommand(id: CommandId)
      modifies this`commands
      ensures commands == old(commands) + [id]
    {
      commands := commands + [id];
    }

    /** `console.warn(...)`. */
    method Warn()
      modifies this`warnings
      ensures warnings == old(warnings) + 1
    {
      warnings := warnings + 1;
    }
  }

  /** A JSON value held by a setting. */
  datatype Value =
    | Null
    | Bool(b: bool)
    | Num(x: real)
    | Str(s: string)
    | Arr(items: seq<Value>)
    | Obj(fields: map<string, Value>)

  /** JavaScript truthiness of a setting's value, `undefined` for a setting
      that is not set anywhere. */
  predicate Truthy(v: Option<Value>) {
    match v
    case None => false
    case Some(Null) => false
    case Some(Bool(b)) => b
    case Some(Num(x)) => x != 0.0
    case Some(Str(s)) => s != ""
    case Some(Arr(_)) => true
    case Some(Obj(_)) => true
  }

  /** The value `config.get(key)` returns: the workspace setting when there is
      one, else the one inherited from the user settings and the defaults. */
  function Effective(workspace: map<string, Value>, inherited: map<string, Value>, key: string): (v: Option<Value>)
    ensures v.Some? <==> key in workspace || key in inherited
    ensures key in workspace ==> v == Some(workspace[key])
    ensures key !in workspace && key in inherited ==> v == Some(inherited[key])
  {
    if key in workspace then Some(workspace[key])
    else if key in inherited then Some(inherited[key])
    else None
  }

  /** `vscode.workspace.getConfiguration()`, updated at the workspace target:
      `workspace` is the workspace settings file, `inherited` the layers
      below it, which the extension never writes. */
  class WorkspaceConfiguration {
    const inherited: map<string, Value>
    var workspace: map<string, Value>

    constructor (inherited: map<string, Value>, workspace: map<string, Value>)
      ensures this.inherited == inherited && this.workspace == workspace
    {
      this.inherited := inherited;
      this.workspace := workspace;
    }

    /** `config.get(key)`. */
    function Get(key: string): Option<Value>
      reads this
    {
      Effective(workspace, inherited, key)
    }

    /** `config.update(key, value, ConfigurationTarget.Workspace)`; writing
        `undefined` removes the key from the workspace settings. */
    method Update(key: string, value: Option<Value>)
      modifies this`workspace
      ensures workspace == if value.Some? then old(workspace)[key := value.value] else old(workspace) - {key}
    {
      if value.Some? {
        workspace := workspace[key := value.value];
      } else {
        workspace := workspace - {key};
      }
    }
  }
}
