/** The user init script init.ts: the `userInitTs.terminal.new` command,
    which opens a terminal tagged with a unique id built from the workspace
    file's path, a short hash of that path and the current time. */
module UserInit {
  import opened Wrappers
  import opened JsRuntime

  /** `vscode.workspace.workspaceFile`, of which only the path is used. */
  datatype Uri = Uri(path: string)

  /** The options passed to `vscode.window.createTerminal`. */
  datatype TerminalOptions = TerminalOptions(shellPath: string, env: map<string, string>)

  /** The command fails with a TypeError when the workspace has no file
      (reading `.path` of `undefined`). */
  datatype CommandError = WorkspaceFileUndefined

  const TermUidVariable: string := "VSCODE_TERM_UID"
  const TmuxShellPath: string := "tmux-new-or-attach-vscode-term-uid"

  // ---------------------------------------------------------------------
  // The workspace basename
  // ---------------------------------------------------------------------

  /** `workspacePath.split('/').pop().split('.')[0]`. */
  function WorkspaceBasename(path: string): string {
    var segments := Split(path, '/');
    Split(segments[|segments| - 1], '.')[0]
  }

  /** `b` starts at `start` in `path`, where the last `/`-separated segment
      begins, and runs up to the first `.` of that segment or to its end. */
  ghost predicate IsBasenameAt(path: string, start: nat, b: string) {
    && start + |b| <= |path|
    && path[start..start + |b|] == b
    && (start == 0 || path[start - 1] == '/')
    && '/' !in path[start..]
    && '.' !in b
    && (start + |b| == |path| || path[start + |b|] == '.')
  }

  /** A prefix of the suffix of `path` from `start` sits at `start` in
      `path`, and holds no character the suffix lacks. */
  lemma PrefixOfSuffix(path: string, start: nat, b: string)
    requires start <= |path| && b <= path[start..]
    ensures start + |b| <= |path| && path[start..start + |b|] == b
    ensures forall c :: c !in path[start..] ==> c !in b
  {
    assert forall i :: 0 <= i < |b| ==> b[i] == path[start..][i];
  }

  /** The basename is the start of the path's last segment, cut at its
      first `.`; so it holds neither `/` nor `.`. */
  lemma WorkspaceBasenameShape(path: string) returns (start: nat)
    ensures IsBasenameAt(path, start, WorkspaceBasename(path))
    ensures '/' !in WorkspaceBasename(path) && '.' !in WorkspaceBasename(path)
  {
    var segments := Split(path, '/');
    var segment := segments[|segments| - 1];
    var b := Split(segment, '.')[0];
    SplitLastPart(path, '/');
    SplitFirstPart(segment, '.');
    start := |path| - |segment|;
    assert segment == path[start..];
    PrefixOfSuffix(path, start, b);
    assert '/' !in b;
    assert |b| < |segment| ==> path[start + |b|] == segment[|b|];
    assert WorkspaceBasename(path) == b;
  }

  /** The shape above pins the basename down: no other string, at no other
      position, has it. */
  lemma {:induction false} BasenameAtIsUnique(path: string, start1: nat, b1: string, start2: nat, b2: string)
    requires IsBasenameAt(path, start1, b1) && IsBasenameAt(path, start2, b2)
    ensures start1 == start2 && b1 == b2
  {
  }

  /** The basename is the whole last segment when that has no `.`, and
      empty for a path ending in `/` or a last segment starting with `.`. */
  lemma {:induction false} WorkspaceBasenameEdgeCases(path: string, start: nat)
    requires start <= |path|
    requires '/' !in path[start..] && (start == 0 || path[start - 1] == '/')
    ensures '.' !in path[start..] ==> WorkspaceBasename(path) == path[start..]
    ensures |path| > 0 && path[|path| - 1] == '/' ==> WorkspaceBasename(path) == ""
    ensures start < |path| && path[start] == '.' ==> WorkspaceBasename(path) == ""
  {
    var start' := WorkspaceBasenameShape(path);
    var b := WorkspaceBasename(path);
    if '.' !in path[start..] {
      var whole := path[start..];
      PrefixOfSuffix(path, start, whole);
      BasenameAtIsUnique(path, start, whole, start', b);
    }
    if start < |path| && path[start] == '.' {
      assert path[start..start + 0] == "";
      BasenameAtIsUnique(path, start, "", start', b);
    }
  }

  // ---------------------------------------------------------------------
  // The timestamp
  // ---------------------------------------------------------------------

  /** The characters the pattern `/[-:.]/g` matches. */
  predicate IsTimestampPunctuation(c: char) {
    c == '-' || c == ':' || c == '.'
  }

  /** `iso.replace(/[-:.]/g, '')`, for `iso` the result of `toISOString()`. */
  function NowStr(iso: string): (r: string)
    ensures |r| <= |iso|
    ensures IsPlain(r)
    decreases |iso|
  {
    if iso == [] then []
    else (if IsTimestampPunctuation(iso[0]) then [] else [iso[0]]) + NowStr(iso[1..])
  }

  /** Deleting the punctuation works character by character: it splits over
      concatenation, ... */
  lemma {:induction false} NowStrOfConcat(a: string, b: string)
    ensures NowStr(a + b) == NowStr(a) + NowStr(b)
    decreases |a|
  {
    if a == [] {
      assert a + b == b;
    } else {
      assert (a + b)[1..] == a[1..] + b;
      NowStrOfConcat(a[1..], b);
    }
  }

  /** ... keeps every other character, ... */
  lemma {:induction false} NowStrKeepsOtherCharacters(s: string)
    requires IsPlain(s)
    ensures NowStr(s) == s
    decreases |s|
  {
    if s != [] {
      NowStrKeepsOtherCharacters(s[1..]);
    }
  }

  /** ... and so is idempotent. */
  lemma NowStrIdempotent(iso: string)
    ensures NowStr(NowStr(iso)) == NowStr(iso)
  {
    NowStrKeepsOtherCharacters(NowStr(iso));
  }

  /** A string holding none of the three punctuation characters. */
  predicate IsPlain(s: string) {
    forall i :: 0 <= i < |s| ==> !IsTimestampPunctuation(s[i])
  }

  /** A plain field followed by a separator keeps the field and loses the separator. */
  lemma {:induction false} NowStrOfField(field: string, sep: char, rest: string)
    requires IsPlain(field) && IsTimestampPunctuation(sep)
    ensures NowStr(field + [sep] + rest) == field + NowStr(rest)
    decreases |field|
  {
    if field == [] {
      assert field + [sep] + rest == [sep] + rest;
      assert ([sep] + rest)[1..] == rest;
    } else {
      assert (field + [sep] + rest)[1..] == field[1..] + [sep] + rest;
      NowStrOfField(field[1..], sep, rest);
      assert field == [field[0]] + field[1..];
    }
  }

  /** The layout `YYYY-MM-DDTHH:mm:ss.sssZ` of `Date.prototype.toISOString`. */
  function IsoTimestamp(year: string, month: string, day: string,
                        hour: string, minute: string, second: string, millis: string): string
  {
    year + ['-'] + (month + ['-'] + (day + ['T'] + hour + [':'] + (minute + [':'] + (second + ['.'] + (millis + ['Z'])))))
  }

  /** A timestamp in the `toISOString()` layout keeps its fields, its `T`
      and its `Z` in order, and loses exactly its separators. */
  lemma {:induction false} NowStrOfIsoTimestamp(year: string, month: string, day: string,
                                               hour: string, minute: string, second: string, millis: string)
    requires IsPlain(year) && IsPlain(month) && IsPlain(day)
    requires IsPlain(hour) && IsPlain(minute) && IsPlain(second) && IsPlain(millis)
    ensures NowStr(IsoTimestamp(year, month, day, hour, minute, second, millis))
      == year + (month + (day + ['T'] + hour + (minute + (second + (millis + ['Z'])))))
  {
    var tail := millis + ['Z'];
    assert IsPlain(tail);
    NowStrKeepsOtherCharacters(tail);
    var dayAndHour := day + ['T'] + hour;
    assert IsPlain(dayAndHour);
    var r1 := second + ['.'] + tail;
    NowStrOfField(second, '.', tail);
    var r2 := minute + [':'] + r1;
    NowStrOfField(minute, ':', r1);
    var r3 := dayAndHour + [':'] + r2;
    NowStrOfField(dayAndHour, ':', r2);
    var r4 := month + ['-'] + r3;
    NowStrOfField(month, '-', r3);
    NowStrOfField(year, '-', r4);
  }

  // ---------------------------------------------------------------------
  // The short hash
  // ---------------------------------------------------------------------

  /** `sha1HexShort(x, n)`: `sha1Hex(x).substr(0, n)`. `sha1Hex` is the hex
      SHA-256 digest computed by a library, so it is a parameter here. */
  function Sha1HexShort(sha1Hex: string -> string, x: string, n: int := 8): (r: string)
    ensures r <= sha1Hex(x)
    ensures |r| == if n <= 0 then 0 else if n < |sha1Hex(x)| then n else |sha1Hex(x)|
  {
    var digest := sha1Hex(x);
    digest[..if n <= 0 then 0 else if n < |digest| then n else |digest|]
  }

  // ---------------------------------------------------------------------
  // The terminal id and the command
  // ---------------------------------------------------------------------

  /** `${workspacePathBasename}-${sha1HexShort(workspacePath)}-${nowStr}`. */
  function TermUid(sha1Hex: string -> string, workspacePath: string, iso: string): string {
    WorkspaceBasename(workspacePath) + "-" + Sha1HexShort(sha1Hex, workspacePath) + "-" + NowStr(iso)
  }

  /** The handler of `userInitTs.terminal.new`: the options of the terminal
      it creates, or the error it stops with. */
  function NewTerminal(workspaceFile: Option<Uri>, sha1Hex: string -> string, iso: string): (r: Result<TerminalOptions, CommandError>)
    ensures r.Err? <==> workspaceFile.None?
    ensures r.Ok? ==> r.value.shellPath == TmuxShellPath
    ensures r.Ok? ==> r.value.env.Keys == {TermUidVariable}
    ensures r.Ok? ==> r.value.env[TermUidVariable] == TermUid(sha1Hex, workspaceFile.value.path, iso)
  {
    match workspaceFile
    case None => Err(WorkspaceFileUndefined)
    case Some(uri) => Ok(TerminalOptions(TmuxShellPath, map[TermUidVariable := TermUid(sha1Hex, uri.path, iso)]))
  }

  /** A hex digest has no `-`, so the id splits back at its last two `-`:
      the timestamp is the last part and the short hash the one before it,
      whatever `-` the basename holds. */
  lemma {:induction false} TermUidParts(sha1Hex: string -> string, workspacePath: string, iso: string)
    requires '-' !in sha1Hex(workspacePath)
    ensures var parts := Split(TermUid(sha1Hex, workspacePath, iso), '-');
      && |parts| >= 3
      && parts[|parts| - 1] == NowStr(iso)
      && parts[|parts| - 2] == Sha1HexShort(sha1Hex, workspacePath)
      && Join(parts[..|parts| - 2], '-') == WorkspaceBasename(workspacePath)
  {
    var b := WorkspaceBasename(workspacePath);
    var h := Sha1HexShort(sha1Hex, workspacePath);
    var t := NowStr(iso);
    assert '-' !in h;
    assert '-' !in t;
    assert TermUid(sha1Hex, workspacePath, iso) == (b + ['-'] + h) + ['-'] + t;
    SplitAtSeparator(b + ['-'] + h, '-', t);
    SplitAtSeparator(b, '-', h);
    var parts := Split(TermUid(sha1Hex, workspacePath, iso), '-');
    assert parts == Split(b, '-') + [h] + [t];
    assert parts[..|parts| - 2] == Split(b, '-');
    JoinSplit(b, '-');
  }

  /** Terminals opened in the same workspace share the basename-hash prefix,
      so two of their ids collide exactly when their timestamps do. */
  lemma SameWorkspaceIdsCollideIffTimestampsDo(sha1Hex: string -> string, workspacePath: string, iso1: string, iso2: string)
    ensures TermUid(sha1Hex, workspacePath, iso1) == TermUid(sha1Hex, workspacePath, iso2) <==> NowStr(iso1) == NowStr(iso2)
  {
    var prefix := WorkspaceBasename(workspacePath) + "-" + Sha1HexShort(sha1Hex, workspacePath) + "-";
    assert TermUid(sha1Hex, workspacePath, iso1) == prefix + NowStr(iso1);
    assert TermUid(sha1Hex, workspacePath, iso2) == prefix + NowStr(iso2);
    if prefix + NowStr(iso1) == prefix + NowStr(iso2) {
      assert NowStr(iso1) == (prefix + NowStr(iso1))[|prefix|..];
      assert NowStr(iso2) == (prefix + NowStr(iso2))[|prefix|..];
    }
  }
}
