/**
 * The extension's command: format a reference to the active editor's file
 * and selection, then either paste it into a terminal running a target
 * application or, failing that, write it to the clipboard.
 *
 * The editor, the settings, the platform name, the terminals, the process
 * enumerator and the clipboard are inputs; the command itself only
 * sequences them.
 */
module Extension {
  import opened Wrappers
  import opened JsString
  import opened ConfigurationManager
  import opened TerminalDetector

  /** A position in a document: 0-based line and character. */
  datatype Position = Position(line: nat, character: nat)

  /** A selection between two positions; empty when they coincide. */
  datatype Selection = Selection(start: Position, end: Position) {
    predicate IsEmpty() {
      start == end
    }
  }

  /** The lines a reference names, 1-based: the whole file, one line, or a
      first and a last line. */
  datatype LineSpan = WholeFile | OneLine(line: nat) | LineRange(first: nat, last: nat)

  /** The lines the selection covers, 1-based; an empty selection names the
      file as a whole. */
  function SpanOf(selection: Selection): (span: LineSpan)
    ensures span.WholeFile? <==> selection.IsEmpty()
    ensures span.OneLine? ==> span.line >= 1
    ensures span.LineRange? ==> span.first >= 1 && span.last >= 1 && span.first != span.last
  {
    if selection.IsEmpty() then WholeFile
    else if selection.start.line == selection.end.line then OneLine(selection.start.line + 1)
    else LineRange(selection.start.line + 1, selection.end.line + 1)
  }

  /** `formatReference`: the path, the 1-based line or line range of a
      non-empty selection, and one trailing space. */
  function FormatReference(filePath: string, selection: Selection): (r: string)
    ensures |r| > |filePath| && r[..|filePath|] == filePath && r[|r| - 1] == ' '
  {
    if selection.IsEmpty() then filePath + " "
    else
      var startLine := selection.start.line + 1;
      var endLine := selection.end.line + 1;
      if startLine == endLine then filePath + ":" + NatToString(startLine) + " "
      else filePath + ":" + NatToString(startLine) + "-" + NatToString(endLine) + " "
  }

  /** Reads back the text between the path and the trailing space: nothing,
      `:N`, or `:N-M`. */
  function ParseSpan(t: string): (r: Option<LineSpan>)
    ensures r == Some(WholeFile) <==> t == []
    ensures r.Some? && t != [] ==> t[0] == ':'
  {
    if t == [] then Some(WholeFile)
    else if t[0] != ':' then None
    else
      var body := t[1..];
      match IndexOf(body, '-')
      case None =>
        (match ParseNat(body)
         case Some(n) => Some(OneLine(n))
         case None => None)
      case Some(k) =>
        (match (ParseNat(body[..k]), ParseNat(body[k + 1..]))
         case (Some(a), Some(b)) => Some(LineRange(a, b))
         case _ => None)
  }

  /** The text of a span between the path and the trailing space. */
  function RenderSpan(span: LineSpan): (r: string)
    ensures r == [] <==> span.WholeFile?
    ensures r != [] ==> r[0] == ':'
  {
    match span
    case WholeFile => ""
    case OneLine(n) => ":" + NatToString(n)
    case LineRange(a, b) => ":" + NatToString(a) + "-" + NatToString(b)
  }

  lemma NoDashInNumeral(n: nat)
    ensures '-' !in NatToString(n)
  {
  }

  /** Every span reads back from its text, which is made of digits, `:`
      and `-` only. */
  lemma ParseRenderSpan(span: LineSpan)
    ensures ParseSpan(RenderSpan(span)) == Some(span)
    ensures forall i :: 0 <= i < |RenderSpan(span)| ==>
      RenderSpan(span)[i] == ':' || RenderSpan(span)[i] == '-' || IsDigit(RenderSpan(span)[i])
  {
    match span
    case WholeFile =>
    case OneLine(n) => ParseOneLine(n);
    case LineRange(a, b) => ParseLineRange(a, b);
  }

  lemma ParseOneLine(n: nat)
    ensures ParseSpan(":" + NatToString(n)) == Some(OneLine(n))
  {
    ParseNatToString(n);
    NoDashInNumeral(n);
    ParseColonNumeral(NatToString(n), n);
  }

  lemma ParseColonNumeral(sa: string, a: nat)
    requires ParseNat(sa) == Some(a) && '-' !in sa
    ensures ParseSpan(":" + sa) == Some(OneLine(a))
  {
    assert (":" + sa)[1..] == sa;
  }

  lemma ParseLineRange(a: nat, b: nat)
    ensures ParseSpan(":" + NatToString(a) + "-" + NatToString(b)) == Some(LineRange(a, b))
  {
    ParseNatToString(a);
    ParseNatToString(b);
    NoDashInNumeral(a);
    ParseColonRange(NatToString(a), NatToString(b), a, b);
  }

  lemma ParseColonRange(sa: string, sb: string, a: nat, b: nat)
    requires ParseNat(sa) == Some(a) && ParseNat(sb) == Some(b) && '-' !in sa
    ensures ParseSpan(":" + sa + "-" + sb) == Some(LineRange(a, b))
  {
    var body := sa + ['-'] + sb;
    assert (":" + sa + "-" + sb)[1..] == body;
    IndexOfAfter(sa, '-', sb);
    assert body[..|sa|] == sa;
    assert body[|sa| + 1..] == sb;
  }

  /** The reference is the path, the text of the selection's span, and a
      space. */
  lemma FormatReferenceRenders(filePath: string, selection: Selection)
    ensures FormatReference(filePath, selection) == filePath + RenderSpan(SpanOf(selection)) + " "
  {
    if !selection.IsEmpty() && selection.start.line != selection.end.line {
      var a := NatToString(selection.start.line + 1);
      var b := NatToString(selection.end.line + 1);
      assert filePath + ":" + a + "-" + b + " " == filePath + (":" + a + "-" + b) + " ";
    } else if !selection.IsEmpty() {
      var a := NatToString(selection.start.line + 1);
      assert filePath + ":" + a + " " == filePath + (":" + a) + " ";
    }
  }

  /** Whatever the path and the selection, the text after the path is a
      single token of digits, `:` and `-` that reads back as exactly the
      lines the selection covers. */
  lemma FormatReferenceDecodes(filePath: string, selection: Selection)
    ensures var r := FormatReference(filePath, selection);
      var middle := r[|filePath|..|r| - 1];
      && ParseSpan(middle) == Some(SpanOf(selection))
      && forall i :: 0 <= i < |middle| ==> middle[i] == ':' || middle[i] == '-' || IsDigit(middle[i])
  {
    var r := FormatReference(filePath, selection);
    var t := RenderSpan(SpanOf(selection));
    FormatReferenceRenders(filePath, selection);
    assert r[|filePath|..|r| - 1] == t;
    ParseRenderSpan(SpanOf(selection));
  }

  /** The three shapes: `path ` for an empty selection, `path:N ` for one
      line and `path:N-M ` for several, N and M 1-based. */
  lemma FormatReferenceShapes(filePath: string, selection: Selection)
    ensures selection.IsEmpty() ==> FormatReference(filePath, selection) == filePath + " "
    ensures !selection.IsEmpty() && selection.start.line == selection.end.line ==>
      FormatReference(filePath, selection) == filePath + ":" + NatToString(selection.start.line + 1) + " "
    ensures selection.start.line != selection.end.line ==>
      FormatReference(filePath, selection)
        == filePath + ":" + NatToString(selection.start.line + 1) + "-" + NatToString(selection.end.line + 1) + " "
  {
  }

  /** A selection from line 10 to line 20 (0-based) gives `path:11-21 `. */
  lemma FormatReferenceRange(filePath: string)
    ensures FormatReference(filePath, Selection(Position(10, 0), Position(20, 0))) == filePath + ":11-21 "
  {
    assert NatToString(11) == "11";
    assert NatToString(21) == "21";
  }

  /** The active editor as the command reads it: the file's path and the
      selection. */
  datatype Editor = Editor(filePath: string, selection: Selection)

  /** The system clipboard; `writes` records the texts written to it. */
  class Clipboard {
    var writes: seq<string>

    constructor()
      ensures writes == []
    {
      writes := [];
    }

    /** `vscode.env.clipboard.writeText(text)`. */
    method WriteText(text: string)
      modifies this
      ensures writes == old(writes) + [text]
    {
      writes := writes + [text];
    }
  }

  /** The per-terminal search `findMatchingTerminal` runs for the
      configured target applications. */
  function SearchFor(settings: Settings, enumerate: int -> seq<ProcRecord>): Option<int> -> Outcome {
    p => TerminalSearch(enumerate, p, TargetApplications(settings))
  }

  /** The index of the terminal `tryAutoPaste` pastes into: none when
      auto-paste is disabled, else the one `findMatchingTerminal` finds. */
  function AutoPasteTarget(settings: Settings, platform: string, enumerate: int -> seq<ProcRecord>,
                           terminals: seq<Terminal>): (r: Option<nat>)
    ensures r.Some? ==> r.value < |terminals|
  {
    if !IsAutoPasteEnabled(platform, settings) then None
    else FindTerminal(SearchFor(settings, enumerate), ProcessIds(terminals)).index
  }

  /** The terminal pasted into is the first one, in list order, with a
      usable pid whose search succeeds; there is none exactly when
      auto-paste is disabled or no terminal's search succeeds. */
  lemma AutoPasteTargetIsFirstMatch(settings: Settings, platform: string, enumerate: int -> seq<ProcRecord>,
                                    terminals: seq<Terminal>)
    ensures var r := AutoPasteTarget(settings, platform, enumerate, terminals);
      var search := SearchFor(settings, enumerate);
      && (r.Some? ==>
            && IsAutoPasteEnabled(platform, settings)
            && IsTruthyPid(terminals[r.value].processId)
            && search(terminals[r.value].processId).found
            && forall j :: 0 <= j < r.value ==> !search(terminals[j].processId).found)
      && (r.None? <==>
            (!IsAutoPasteEnabled(platform, settings)
             || forall j :: 0 <= j < |terminals| ==> !search(terminals[j].processId).found))
  {
    var search := SearchFor(settings, enumerate);
    var ids := ProcessIds(terminals);
    FindTerminalFirstMatch(search, ids);
    FindTerminalHasPid(enumerate, ids, TargetApplications(settings));
  }

  /** The same target read through the process tree: the first terminal
      whose shell has a process running a configured application within
      three generations below it; none exactly when auto-paste is disabled
      or no terminal's shell has one. */
  lemma AutoPasteTargetFindsDescendant(settings: Settings, platform: string, enumerate: int -> seq<ProcRecord>,
                                       terminals: seq<Terminal>)
    ensures var r := AutoPasteTarget(settings, platform, enumerate, terminals);
      var apps := TargetApplications(settings);
      && (r.Some? ==>
            && IsTruthyPid(terminals[r.value].processId)
            && MatchWithin(enumerate, terminals[r.value].processId.value, apps, 1)
            && forall j :: 0 <= j < r.value && IsTruthyPid(terminals[j].processId) ==>
                 !MatchWithin(enumerate, terminals[j].processId.value, apps, 1))
      && (r.None? <==>
            (!IsAutoPasteEnabled(platform, settings)
             || forall j :: 0 <= j < |terminals| && IsTruthyPid(terminals[j].processId) ==>
                  !MatchWithin(enumerate, terminals[j].processId.value, apps, 1)))
  {
    var apps := TargetApplications(settings);
    var search := SearchFor(settings, enumerate);
    AutoPasteTargetIsFirstMatch(settings, platform, enumerate, terminals);
    forall j | 0 <= j < |terminals| && IsTruthyPid(terminals[j].processId)
      ensures search(terminals[j].processId).found
              <==> MatchWithin(enumerate, terminals[j].processId.value, apps, 1)
    {
      SearchTreeFindsExactly(enumerate, terminals[j].processId.value, apps, 1);
    }
  }

  /** Whether pasting into the terminal succeeds: neither `sendText` nor
      `show` throws. */
  predicate PasteSucceeds(terminal: Terminal) {
    !terminal.sendTextThrows && !terminal.showThrows
  }

  /** `tryAutoPaste(reference)`: false without enumerating any process when
      auto-paste is disabled; otherwise the result of pasting into the
      terminal found, or false when none is. Only the terminal pasted into
      changes. `calls` are the pids handed to the enumerator. */
  method TryAutoPaste(reference: string, settings: Settings, platform: string,
                      enumerate: int -> seq<ProcRecord>, terminals: seq<Terminal>)
    returns (pasted: bool, ghost calls: seq<int>)
    modifies terminals
    ensures calls == if IsAutoPasteEnabled(platform, settings)
                     then FindTerminal(SearchFor(settings, enumerate), ProcessIds(terminals)).calls
                     else []
    ensures var target := AutoPasteTarget(settings, platform, enumerate, terminals);
      && pasted == (target.Some? && PasteSucceeds(terminals[target.value]))
      && (target.Some? ==>
            var t := terminals[target.value];
            && t.sent == (if t.sendTextThrows then old(t.sent) else old(t.sent) + [SentText(reference, false)])
            && t.shown == (old(t.shown) || pasted))
      && forall j :: 0 <= j < |terminals| && (target.None? || terminals[j] != terminals[target.value]) ==>
           terminals[j].sent == old(terminals[j].sent) && terminals[j].shown == old(terminals[j].shown)
  {
    if !IsAutoPasteEnabled(platform, settings) {
      return false, [];
    }
    var targetApps := TargetApplications(settings);
    var terminal;
    terminal, calls := FindMatchingTerminal(enumerate, terminals, targetApps);
    if terminal != null {
      pasted := PasteToTerminal(terminal, reference);
      return;
    }
    pasted := false;
  }

  /** `copyReference`: with no active editor nothing happens. Otherwise the
      reference is formatted, auto-paste is tried, and the clipboard gets
      the reference exactly when that attempt returned false. */
  method CopyReference(editor: Option<Editor>, settings: Settings, platform: string,
                       enumerate: int -> seq<ProcRecord>, terminals: seq<Terminal>, clipboard: Clipboard)
    modifies clipboard, terminals
    ensures editor.None? ==>
      && clipboard.writes == old(clipboard.writes)
      && forall j :: 0 <= j < |terminals| ==>
           terminals[j].sent == old(terminals[j].sent) && terminals[j].shown == old(terminals[j].shown)
    ensures editor.Some? ==>
      var reference := FormatReference(editor.value.filePath, editor.value.selection);
      var target := AutoPasteTarget(settings, platform, enumerate, terminals);
      var pasted := target.Some? && PasteSucceeds(terminals[target.value]);
      && clipboard.writes == (if pasted then old(clipboard.writes) else old(clipboard.writes) + [reference])
      && (target.Some? ==>
            var t := terminals[target.value];
            && t.sent == (if t.sendTextThrows then old(t.sent) else old(t.sent) + [SentText(reference, false)])
            && t.shown == (old(t.shown) || pasted))
      && forall j :: 0 <= j < |terminals| && (target.None? || terminals[j] != terminals[target.value]) ==>
           terminals[j].sent == old(terminals[j].sent) && terminals[j].shown == old(terminals[j].shown)
  {
    if editor.None? {
      return;
    }
    var reference := FormatReference(editor.value.filePath, editor.value.selection);
    var pasted;
    ghost var calls;
    pasted, calls := TryAutoPaste(reference, settings, platform, enumerate, terminals);
    if !pasted {
      clipboard.WriteText(reference);
    }
  }
}
