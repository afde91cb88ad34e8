/** The extension in jdanbrown/src/extension.ts: a second copy of the
    half-page terminal scroll, with its own `range`. */
module JdanbrownExtension {
  import opened Wrappers
  import opened JsRuntime
  import opened VscodeHost
  import JdanbrownInit

  /** `range(n)`, built by spreading `Array(n).keys()`; it throws for the
      same reasons as the other copy. */
  function Range(n: real): (r: Result<seq<int>, JdanbrownInit.RangeError>)
    ensures r == Err(JdanbrownInit.NotInteger) <==> !IsInteger(n)
    ensures r.Ok? <==> IsInteger(n) && 0.0 <= n <= MaxArrayLength as real
    ensures r.Ok? ==> |r.value| as real == n && forall i :: 0 <= i < |r.value| ==> r.value[i] == i
  {
    if !IsInteger(n) then Err(JdanbrownInit.NotInteger)
    else if n < 0.0 || n > MaxArrayLength as real then Err(JdanbrownInit.InvalidArrayLength)
    else Ok(ArrayKeys(n.Floor))
  }

  /** The row count assumed when the terminal does not report its dimensions. */
  const NumRowsIfUndefined: nat := 255

  /** The lookup table `{'down': ..., 'up': ...}[direction]`. */
  function ScrollCommand(direction: Direction): CommandId {
    match direction
    case Up => ScrollUpCommand
    case Down => ScrollDownCommand
  }

  /** The effect of `scrollHalfPage(direction)` when `active` is the active terminal. */
  function ScrollHalfPageEffect(active: Option<Terminal>, direction: Direction): JdanbrownInit.ScrollEffect {
    match active
    case None => JdanbrownInit.ScrollEffect([], 0, JdanbrownInit.Normal)
    case Some(terminal) =>
      var dims := terminal.dimensions;
      var warnings := if dims.None? then 1 else 0;
      var rows := if dims.Some? then dims.value.rows else NumRowsIfUndefined;
      match Range(Floor(rows as real / 2.0))
      case Err(e) => JdanbrownInit.ScrollEffect([], warnings, JdanbrownInit.Thrown(e))
      case Ok(keys) => JdanbrownInit.ScrollEffect(Repeated(ScrollCommand(direction), |keys|), warnings, JdanbrownInit.Normal)
  }

  /** `scrollHalfPage(direction)`. */
  method ScrollHalfPage(host: Workbench, direction: Direction) returns (completion: JdanbrownInit.Completion)
    modifies host`commands, host`warnings
    ensures var effect := ScrollHalfPageEffect(host.activeTerminal, direction);
      && host.commands == old(host.commands) + effect.commands
      && host.warnings == old(host.warnings) + effect.warnings
      && completion == effect.completion
  {
    var terminal := host.activeTerminal;
    if terminal.None? {
      return JdanbrownInit.Normal;
    }
    var dims := terminal.value.dimensions;
    if dims.None? {
      host.Warn();
    }
    var rows := if dims.Some? then dims.value.rows else NumRowsIfUndefined;
    var keys := Range(Floor(rows as real / 2.0));
    ghost var warnings := if dims.None? then 1 else 0;
    if keys.Err? {
      return JdanbrownInit.Thrown(keys.error);
    }
    for k := 0 to |keys.value|
      invariant host.commands == old(host.commands) + Repeated(ScrollCommand(direction), k)
      invariant host.warnings == old(host.warnings) + warnings
    {
      host.ExecuteCommand(ScrollCommand(direction));
    }
    return JdanbrownInit.Normal;
  }

  /** The two copies of `range` agree on every input. */
  lemma RangeMatchesInit(n: real)
    ensures Range(n) == JdanbrownInit.Range(n)
  {
  }

  /** The two copies of the half-page scroll issue the same commands, log the
      same warnings and end the same way, on every terminal and direction. */
  lemma ScrollHalfPageMatchesInit(active: Option<Terminal>, direction: Direction)
    ensures ScrollHalfPageEffect(active, direction) == JdanbrownInit.TerminalScrollHalfPageEffect(active, direction)
  {
  }

  /** The editor dispatching two scroll commands one after the other: the
      second appends its own effect to the first's, whatever the first did,
      even if it threw. */
  method ScrollHalfPageTwice(host: Workbench, first: Direction, second: Direction)
    returns (completions: (JdanbrownInit.Completion, JdanbrownInit.Completion))
    modifies host`commands, host`warnings
    ensures var e1 := ScrollHalfPageEffect(host.activeTerminal, first);
      var e2 := ScrollHalfPageEffect(host.activeTerminal, second);
      && host.commands == old(host.commands) + e1.commands + e2.commands
      && host.warnings == old(host.warnings) + e1.warnings + e2.warnings
      && completions == (e1.completion, e2.completion)
  {
    var c1 := ScrollHalfPage(host, first);
    var c2 := ScrollHalfPage(host, second);
    completions := (c1, c2);
  }
}
