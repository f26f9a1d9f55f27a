# code-reference-copier, modelled in Dafny

This Dafny project models the core of the VS Code extension
"code-reference-copier". Its one command formats a reference to the active
file and selection: `path `, `path:N ` or `path:N-M `, with 1-based line
numbers and a trailing space. It then tries to paste that reference into a
terminal. The terminal must be running one of the configured "target
applications" (an AI command-line tool such as `kiro-cli`) within three
generations of processes below its shell. If no such terminal is found, or
the paste fails, the reference goes to the clipboard instead.

The modules follow the extension's source files:

- `ConfigurationManager` (`configuration_manager.dfy`) filters the configured
  application list, decides whether auto-paste is enabled, and returns the
  template strings or their defaults.
- `ProcessDetector` (`process_detector.dfy`) parses a child-process listing
  (trim, split on newlines, drop blank lines). The listing command is an
  input, and a failed command gives an empty list.
- `TerminalDetector` (`terminal_detector.dfy`) holds the whole-word matcher
  `\b<app>(?:\s|$)`. It also holds the depth-bounded process-tree search
  (`SearchTree` and `SearchBranches`) and the terminal lookup
  (`FindTerminal`). Each is a function, and the loop methods
  `SearchProcessTree`, `SearchChildren`, `CheckLevel` and
  `FindMatchingTerminal` are proved equal to those functions. The module
  also has a `Terminal` class that records the texts sent to it and whether
  it was shown, and `PasteToTerminal`.
- `Extension` (`extension.dfy`) holds `FormatReference` with its decoder
  `ParseSpan`, `TryAutoPaste`, and `CopyReference` over a `Clipboard`
  object.
- `JsString` (`js_string.dfy`) holds the JavaScript string operations the
  code relies on (`trim`, `split`, `\s`, `\w`, decimal rendering), a
  first-occurrence search that the span decoder uses, and `join`. The
  extension's code never joins; `join` is there to state the round trip of
  the process-listing test at src/test/processDetector.test.ts:67.
- `Wrappers` (`wrappers.dfy`) holds `Option`.

The environment comes in as inputs:

- the process enumerator, a function from a pid to the child-process
  records in listing order;
- the settings, as a `Settings` value where an unset key is `None`;
- the platform name;
- the terminals, in window order;
- the active editor, as an `Option`.

The searches return, next to their boolean, the pids they pass to the
enumerator, in order (`calls`). This makes "later siblings and later
terminals are never enumerated" a provable statement.

## Model

| member | source | states |
|---|---|---|
| JsString.IsWhitespace | src/processDetector.ts:32 | the ECMAScript WhiteSpace and LineTerminator code points (tab, vertical tab, form feed, space, no-break space, the Zs space separators, byte-order mark, LF, CR, line and paragraph separators): what `trim` strips here and at src/configurationManager.ts:7, and what `\s` matches at src/terminalDetector.ts:41 |
| JsString.IsWordChar | src/terminalDetector.ts:41 | the class `\w` without the `u` and `i` flags (ASCII letters, digits and `_`), which defines `\b` |
| JsString.Trim | src/processDetector.ts:32 | `trim` leaves no whitespace at either end, and it is empty exactly when the input is blank |
| JsString.TrimIsInfix | src/processDetector.ts:32 | the trimmed string is the part of the input between a blank prefix and a blank suffix; only the two ends are removed |
| JsString.TrimBlankTail | src/processDetector.ts:32 | appending blank text to a string that does not start or end with whitespace leaves its trim unchanged |
| JsString.Split | src/processDetector.ts:32 | `split('\n')` yields at least one piece, and no piece contains the separator |
| JsString.JoinSplit | src/processDetector.ts:32 | joining the pieces of a split with the same separator gives back the original string |
| JsString.SplitJoin | src/test/processDetector.test.ts:62-73 | splitting the join of one or more separator-free pieces gives back the pieces |
| JsString.SplitPrefix | src/processDetector.ts:32 | a separator-free head, then the separator, then the rest, splits into the head followed by the split of the rest |
| JsString.NatToString | src/extension.ts:63 | `${n}` is a non-empty run of decimal digits with no leading zero |
| JsString.ParseNatToString | src/extension.ts:63-66 | reading back the decimal rendering of n gives n |
| JsString.IndexOf | src/extension.ts:66 | a helper of the decoder `Extension.ParseSpan`, which finds the `-` between N and M in the text this line produces (the source itself searches for nothing): the index found holds the character and nothing before it does; none exactly when the character is absent |
| ConfigurationManager.IsTargetEntry | src/configurationManager.ts:7 | the filter's test: the entry is a string whose trim is not empty; the entry itself is kept untrimmed |
| ConfigurationManager.FilterTargets | src/configurationManager.ts:7 | the filtered list is no longer than the setting, and every entry in it is non-blank |
| ConfigurationManager.FilterTargetsMembers | src/configurationManager.ts:7 | x is kept exactly when the setting holds the string x and x is not blank after trimming; a kept entry is the configured string itself, untrimmed |
| ConfigurationManager.FilterTargetsAppend | src/configurationManager.ts:7 | the filter works entry by entry: filtering a concatenation gives the concatenation of the filtered parts |
| ConfigurationManager.FilterTargetsSubsequence | src/configurationManager.ts:7 | the kept entries appear in the setting's string entries in their original order |
| ConfigurationManager.FilterTargetsExample | src/test/configurationManager.test.ts:65-69 | `['kiro-cli','','  ','copilot',null,undefined]` filters to `['kiro-cli','copilot']` |
| ConfigurationManager.TargetApplications | src/configurationManager.ts:4-8 | an unset list reads as `[]`; a set list is filtered |
| ConfigurationManager.IsAutoPasteEnabled | src/configurationManager.ts:10-12 | enabled exactly when the platform is `linux` and the setting holds at least one non-blank string |
| ConfigurationManager.TemplatePath | src/configurationManager.ts:14-17 | the configured template, or `{PATH} ` when unset |
| ConfigurationManager.TemplateSingleLine | src/configurationManager.ts:19-22 | the configured template, or `{PATH}:{LINE1} ` when unset |
| ConfigurationManager.TemplateMultiLine | src/configurationManager.ts:24-27 | the configured template, or `{PATH}:{LINE1}-{LINE2} ` when unset |
| ConfigurationManager.TemplateWithText | src/configurationManager.ts:29-32 | the configured template, or two newlines, `{TEXT}` and two newlines when unset |
| ProcessDetector.HasContent | src/processDetector.ts:32 | the filter's test on one line: its trim is not empty |
| ProcessDetector.KeepNonBlank | src/processDetector.ts:32 | the kept lines are input lines, none of them blank |
| ProcessDetector.KeepNonBlankMembers | src/processDetector.ts:32 | a line is kept exactly when it is an input line that is not blank |
| ProcessDetector.KeepNonBlankAppend | src/processDetector.ts:32 | the blank-line filter works line by line, preserving order |
| ProcessDetector.KeepNonBlankAll | src/processDetector.ts:32 | a list with no blank line passes the filter unchanged |
| ProcessDetector.ParseOutput | src/processDetector.ts:29-33 | no parsed line is blank or contains a newline; blank or empty output parses to `[]` |
| ProcessDetector.ParseOutputMembers | src/processDetector.ts:32 | a line is in the result exactly when it is a newline-separated line of the trimmed output and is not blank |
| ProcessDetector.ParseOutputOfLines | src/test/processDetector.test.ts:34-46 | lines joined with newlines and followed by blank text parse to exactly the non-blank lines, in order; interior lines keep their own surrounding whitespace |
| ProcessDetector.ParseOutputRoundTrip | src/test/processDetector.test.ts:62-73 | names that are non-blank, newline-free and unpadded, printed one per line with a final newline, parse back to the same names |
| ProcessDetector.GetChildProcesses | src/processDetector.ts:7-27 | a failed listing command gives `[]`; a completed one gives the parse of its output |
| TerminalDetector.WordBoundary | src/terminalDetector.ts:41 | `\b` at index i: exactly one of the characters on its two sides is a word character of `\w`, a string end counting as a non-word character |
| TerminalDetector.MatchesAt | src/terminalDetector.ts:41-42 | the pattern matches at index i: a word boundary at i, the application name as literal text from i, then whitespace or the end of the command line |
| TerminalDetector.WordMatch | src/terminalDetector.ts:41-42 | `pattern.test(commandLine)`: the pattern matches at some index of the command line |
| TerminalDetector.MatchesAnyApp | src/terminalDetector.ts:38-45 | the inner loop over the target applications: some application's pattern matches the command line |
| TerminalDetector.LevelMatch | src/terminalDetector.ts:36-46 | the outcome of the first loop: some process of this level matches some target application |
| TerminalDetector.WordMatchStandalone | src/terminalDetector.ts:41-42 | an application name that starts with a word character matches where it stands as a whole word: at the start or after a non-word character, and at the end or before whitespace (`git` in `git status` and in `/usr/bin/git`) |
| TerminalDetector.WordMatchExtendRight | src/terminalDetector.ts:41-42 | a match survives appending whitespace and any further text |
| TerminalDetector.WordMatchExtendLeft | src/terminalDetector.ts:41-42 | a match survives prepending text that ends in a non-word character |
| TerminalDetector.NoMatchInsideLongerName | src/terminalDetector.ts:41-42 | `git` does not match `github-copilot` |
| TerminalDetector.NoMatchInsideWord | src/terminalDetector.ts:41-42 | `git` does not match `mygit` |
| TerminalDetector.NoMatchOtherCase | src/test/terminalDetector.test.ts:97-105 | matching is case-sensitive: `kiro-cli` does not match `KIRO-CLI` |
| TerminalDetector.SearchTree | src/terminalDetector.ts:29-57 | past depth 3 nothing is enumerated and the result is false; otherwise the first enumeration is of pid itself; a match among pid's own children gives true after that single enumeration, without descending |
| TerminalDetector.SearchBranches | src/terminalDetector.ts:49-56 | no children: false, with nothing enumerated |
| TerminalDetector.SearchBranchesFound | src/terminalDetector.ts:49-56 | the branch search succeeds exactly when some child's subtree search does |
| TerminalDetector.SearchBranchesFoundAt | src/terminalDetector.ts:49-56 | one child whose subtree matches makes the branch search succeed |
| TerminalDetector.SearchBranchesFoundWhich | src/terminalDetector.ts:49-56 | a successful branch search owes its success to some child's subtree |
| TerminalDetector.SearchBranchesSkipsMisses | src/terminalDetector.ts:49-56 | children whose subtrees do not match are searched in full, one after another, before the branch search moves to the next child |
| TerminalDetector.SearchBranchesStopsAtFirstMatch | src/terminalDetector.ts:49-56 | when child k is the first whose subtree matches, the result is true and the enumerations are exactly those of the subtrees of children 0..k; later siblings are never enumerated |
| TerminalDetector.SearchBranchesExhausts | src/terminalDetector.ts:49-56 | when no subtree matches, the result is false and every subtree is searched in full |
| TerminalDetector.SearchTreeFindsExactly | src/terminalDetector.ts:29-57 | the search reports a match exactly when some descendant 1 to Budget(depth) generations below pid (1 to 3 from the shell) has a command line matching a target application |
| TerminalDetector.SearchTreeSound | src/terminalDetector.ts:36-56 | a reported match is a real match within the examined generations |
| TerminalDetector.SearchTreeComplete | src/terminalDetector.ts:36-56 | every match within the examined generations is reported |
| TerminalDetector.SearchTreeEnumeratesWithin | src/terminalDetector.ts:30-34 | the enumerator is only ever called on the starting pid and on descendants above the last examined generation; generation 3 is tested but never enumerated |
| TerminalDetector.SearchTreeNoTargets | src/test/terminalDetector.test.ts:163-171 | an empty target list never matches |
| TerminalDetector.SearchTreeNoChildren | src/terminalDetector.ts:34-56 | a process without children gives false after its own enumeration only |
| TerminalDetector.CheckLevel | src/terminalDetector.ts:36-46 | the nested loops over children and target applications return true exactly when some child matches some application |
| TerminalDetector.SearchProcessTree | src/terminalDetector.ts:29-57 | the loop method's result and its enumerations are those of the function `SearchTree` |
| TerminalDetector.SearchChildren | src/terminalDetector.ts:49-56 | the loop over the children gives the result and the enumerations of the function `SearchBranches` |
| TerminalDetector.IsTruthyPid | src/terminalDetector.ts:18 | `if (processId)`: the pid is present and not 0 |
| TerminalDetector.TerminalSearch | src/terminalDetector.ts:17-19 | a terminal whose pid is missing or 0 is skipped: false, with nothing enumerated; otherwise the search starts at the shell's pid |
| TerminalDetector.FindTerminal | src/terminalDetector.ts:16-26 | the index found, if any, is that of one of the terminals |
| TerminalDetector.FindTerminalFirstMatch | src/terminalDetector.ts:16-26 | the terminal found is the first in list order whose search matches, and every earlier terminal's search fails; none is found exactly when no terminal's search matches |
| TerminalDetector.FindTerminalHasPid | src/terminalDetector.ts:17-18 | a terminal without a usable pid is never the one found |
| TerminalDetector.FindTerminalSkipsMisses | src/terminalDetector.ts:16-24 | terminals that do not match are searched in full, in order, before the next one is tried |
| TerminalDetector.FindTerminalStopsAtFirstMatch | src/terminalDetector.ts:16-22 | when terminal i is the first whose search matches, it is the one found, after the searches from terminals 0..i and no others |
| TerminalDetector.FindTerminalExhausts | src/terminalDetector.ts:16-26 | when no terminal's search matches, nothing is found and every terminal is searched from |
| TerminalDetector.SearchFromTerminal | src/terminalDetector.ts:17-19 | one terminal's turn in the loop: no search for a missing or zero pid, otherwise the tree search from depth 1 |
| TerminalDetector.FindTerminalCalls | src/terminalDetector.ts:16-26 | the enumerations are those of the terminals up to and including the one found, or of all terminals when none is found; terminals after it are never searched |
| TerminalDetector.FindTerminalEmptyInputs | src/test/terminalDetector.test.ts:70-75 | with no terminals, or with no target applications, nothing is found |
| TerminalDetector.FindMatchingTerminal | src/terminalDetector.ts:13-27 | the loop method returns the terminal at the index `FindTerminal` gives (null when none), with the same enumerations |
| TerminalDetector.ProcessIds | src/terminalDetector.ts:17 | one process id per terminal, in order |
| TerminalDetector.Terminal.SendText | src/test/terminalDetector.test.ts:26-28 | records the text and the execute flag unless the host throws; the shown flag is unchanged |
| TerminalDetector.Terminal.Show | src/test/terminalDetector.test.ts:30-32 | sets the shown flag unless the host throws; the sent texts are unchanged |
| TerminalDetector.PasteToTerminal | src/terminalDetector.ts:59-68 | sends exactly the text, not executed, then shows the terminal; true exactly when neither call throws; a throw from `sendText` sends nothing and skips `show` |
| TerminalDetector.AsWrittenSearch | src/terminalDetector.ts:29-57 | `searchProcessTree` as written over the process names that `getChildProcesses` returns: past depth 3 false; any non-empty level is tested as the text "undefined" against every application; each child is then searched from an absent pid |
| TerminalDetector.AsWrittenBranches | src/terminalDetector.ts:49-54 | the second loop as written: n children, each searched from the absent pid, stopping at the first true |
| TerminalDetector.AsWrittenNeverFinds | src/terminalDetector.ts:42 | as written over process names, the search can only succeed for an application that matches the text "undefined" |
| TerminalDetector.KiroCliMissesUndefined | src/terminalDetector.ts:41-42 | `kiro-cli` does not match the text "undefined" |
| TerminalDetector.AsWrittenMissesRunningApp | src/test/terminalDetector.test.ts:87-95 | with the shell running `bash`, `kiro-cli` and `vim`, the as-written search reports no match, while the search over records finds `kiro-cli` |
| Extension.SpanOf | src/extension.ts:55-62 | the lines a selection names, 1-based: the whole file exactly when the selection is empty, otherwise one line or a range of two different lines, all numbered from 1 |
| Extension.RenderSpan | src/extension.ts:56-66 | the text after the path: empty exactly for the whole file, otherwise starting with `:` |
| Extension.ParseSpan | src/extension.ts:56-66 | the decoder of that text: the whole file exactly for the empty text, and any other text it accepts starts with `:` |
| Extension.FormatReference | src/extension.ts:54-67 | the reference starts with the path unchanged and ends with a space |
| Extension.FormatReferenceRenders | src/extension.ts:54-67 | the reference is the path, then the text of the selection's line span, then one space |
| Extension.FormatReferenceDecodes | src/extension.ts:54-67 | the text between the path and the trailing space is made of digits, `:` and `-`, and reads back as exactly the 1-based lines the selection covers: none for an empty selection, one line, or first and last line |
| Extension.ParseRenderSpan | src/extension.ts:63-66 | every line span reads back from its text |
| Extension.FormatReferenceShapes | src/extension.ts:55-66 | the three shapes: `path ` for an empty selection, `path:N ` for a non-empty selection on one line, `path:N-M ` for a selection over several lines, with 1-based N and M |
| Extension.FormatReferenceRange | src/test/extension.test.ts:202-212 | a selection from line 10 to line 20 gives `path:11-21 ` |
| Extension.Clipboard.WriteText | src/extension.ts:32 | appends the text to the clipboard's record of writes |
| Extension.SearchFor | src/extension.ts:44-45 | the search `findMatchingTerminal` runs from each terminal, on the application list `getTargetApplications` returns |
| Extension.AutoPasteTarget | src/extension.ts:39-49 | the terminal pasted into, if any, is one of the terminals |
| Extension.AutoPasteTargetIsFirstMatch | src/extension.ts:39-49 | the terminal pasted into is the first one, with a usable pid, whose search succeeds; there is none exactly when auto-paste is disabled or no terminal's search succeeds |
| Extension.AutoPasteTargetFindsDescendant | src/extension.ts:39-49 | the same target stated over the process tree: the first terminal, with a usable pid, whose shell has a process running a configured application one to three generations below it (a match four generations down is never found); there is none exactly when auto-paste is disabled or no terminal with a usable pid has such a process |
| Extension.TryAutoPaste | src/extension.ts:39-52 | when disabled: false, nothing enumerated, nothing changed. Otherwise the result is the paste into the terminal found, or false when none is. Only that terminal changes |
| Extension.CopyReference | src/extension.ts:18-37 | with no editor, neither the clipboard nor any terminal changes. Otherwise the reference is formatted, auto-paste is tried, and the clipboard receives the reference exactly when the attempt returned false |

## Left out

- The listing commands and `execAsync` (src/processDetector.ts:12-21) are OS I/O. `GetChildProcesses` takes that step as a function `query` from the parent pid to a completed output or a failure. The Windows and Unix command strings and the platform branch are not modelled.
- `ProcessDetector.ParseOutput`: the platform argument of `parseOutput` is unused by the code, so the model has none.
- The listing is line-oriented process names, with no pid per line. The model follows the code here. It does not model `pid,commandLine` record lines, records with integer pids, or rejoining commas inside command lines. The records the search reads come from the enumerator input of `TerminalDetector`. See the finding below.
- The VS Code host is not modelled: `window.terminals`, `activeTextEditor`, the configuration store, `process.platform`, command registration, `activate` and `deactivate`. Their values are parameters: the terminal sequence, the `Option<Editor>`, `Settings` and the platform string.
- Promises and `await` are not modelled. The code runs its steps one after another, so the model makes them sequential calls.
- `console.error` logging and the outer `try`/`catch` of `copyReference` are not modelled. The clipboard write is modelled as never throwing.
- Regular-expression semantics beyond a literal application name are not modelled. The pattern is built from the configured string without escaping. The model reads the name as literal text, which agrees with the code only for names without metacharacters; a name such as `c++` makes the real `RegExp` constructor throw.
- `JsString.NatToString`: renders every natural number in plain decimal. JavaScript switches to exponent notation from 1e21 on, and a line number never gets that large.
- `ConfigurationManager.TargetApplications`: a setting value that is not an array (which `filter` would reject with a throw) is not modelled. The setting is assumed to be an array of arbitrary values, and non-strings are `NotString`.
- The template getters are modelled, but nothing in the code uses the templates: `formatReference` hard-codes its three shapes.
- `TerminalDetector.SearchProcessTree`, `TerminalDetector.FindMatchingTerminal`, `Extension.TryAutoPaste`: the enumerations are a ghost result, because the source does not return them.
- `Extension.CopyReference`: "paste or clipboard, never both" fails in exactly one case: `sendText` succeeds and `show` then throws. `pasteToTerminal` then returns false, so the terminal has received the text and the clipboard is written as well. In every other case (auto-paste disabled, no matching terminal, a successful paste, `sendText` throwing) exactly one of the two happens. The contract states this rather than the stronger either/or.
- The test suites under src/test/ and their mock classes are not modelled; they serve only as evidence for the properties. src/test/runTest.ts and src/test/suite/integration.test.ts are not part of this model.

## Findings

| source | as written | input that shows it | evidently intended | confidence | as-written member | corrected member |
|---|---|---|---|---|---|---|
| src/terminalDetector.ts:42 | `getChildProcesses` returns process names as strings (src/processDetector.ts:7). The search then reads `process.commandLine` and `process.pid`, which are undefined on a string. So every child is tested against the text "undefined", and the recursion enumerates the children of an undefined pid. | The shell 1234 has the children `bash`, `kiro-cli` and `vim`, and the target is `kiro-cli` (src/test/terminalDetector.test.ts:87-95). The search reports no match, so `findMatchingTerminal` returns null instead of the terminal. | Each child's own command line is tested, and the recursion descends into each child's own pid. | not executed | TerminalDetector.AsWrittenMissesRunningApp | TerminalDetector.SearchTreeFindsExactly |
