/**
 * The child-process enumerator: it runs a platform-specific listing command
 * for a parent pid (left abstract here) and turns its standard output into
 * one string per line, swallowing every failure into an empty list.
 */
module ProcessDetector {
  import opened JsString

  /** What `execAsync` produces: the command's standard output, or a
      rejection (non-zero exit, missing tool, permission denied, ...). */
  datatype ExecResult = Completed(stdout: string) | Failed

  /** The filter `line.trim().length > 0`. */
  predicate HasContent(line: string) {
    |Trim(line)| > 0
  }

  /** The lines that pass the filter, in order and untrimmed. */
  function KeepNonBlank(lines: seq<string>): (r: seq<string>)
    ensures |r| <= |lines|
    ensures forall k :: 0 <= k < |r| ==> !IsBlank(r[k]) && r[k] in lines
  {
    if lines == [] then []
    else
      var rest := KeepNonBlank(lines[1..]);
      if HasContent(lines[0]) then [lines[0]] + rest else rest
  }

  /** The filter distributes over concatenation. */
  lemma {:induction false} KeepNonBlankAppend(a: seq<string>, b: seq<string>)
    ensures KeepNonBlank(a + b) == KeepNonBlank(a) + KeepNonBlank(b)
  {
    if a == [] {
      assert a + b == b;
    } else {
      assert (a + b)[0] == a[0];
      assert (a + b)[1..] == a[1..] + b;
      KeepNonBlankAppend(a[1..], b);
      if HasContent(a[0]) {
        assert [a[0]] + (KeepNonBlank(a[1..]) + KeepNonBlank(b))
          == ([a[0]] + KeepNonBlank(a[1..])) + KeepNonBlank(b);
      }
    }
  }

  /** A line is kept exactly when it occurs and is not blank. */
  lemma {:induction false} KeepNonBlankMembers(lines: seq<string>, x: string)
    ensures x in KeepNonBlank(lines) <==> x in lines && !IsBlank(x)
  {
    if lines != [] {
      KeepNonBlankMembers(lines[1..], x);
      assert x in lines <==> x == lines[0] || x in lines[1..];
    }
  }

  /** Lines that are all non-blank pass the filter unchanged. */
  lemma {:induction false} KeepNonBlankAll(lines: seq<string>)
    requires forall k :: 0 <= k < |lines| ==> !IsBlank(lines[k])
    ensures KeepNonBlank(lines) == lines
  {
    if lines != [] {
      KeepNonBlankAll(lines[1..]);
      assert [lines[0]] + lines[1..] == lines;
    }
  }

  /** `parseOutput`: trim the whole output, split it on '\n' and keep the
      lines that are not blank. Every result is a non-blank line without a
      newline; blank output gives no lines. */
  function ParseOutput(stdout: string): (r: seq<string>)
    ensures forall k :: 0 <= k < |r| ==> !IsBlank(r[k]) && '\n' !in r[k]
    ensures IsBlank(stdout) ==> r == []
  {
    var lines := Split(Trim(stdout), '\n');
    assert IsBlank(stdout) ==> lines == [""];
    KeepNonBlank(lines)
  }

  /** The results are exactly the non-blank lines of the trimmed output. */
  lemma ParseOutputMembers(stdout: string, x: string)
    ensures x in ParseOutput(stdout) <==> x in Split(Trim(stdout), '\n') && !IsBlank(x)
  {
    KeepNonBlankMembers(Split(Trim(stdout), '\n'), x);
  }

  /** Output made of newline-free lines, with no whitespace at its very
      start or end, followed by any blank tail (trailing newlines, spaces):
      the result is exactly the non-blank lines, in order and verbatim, so an
      interior line keeps its own leading and trailing whitespace. */
  lemma ParseOutputOfLines(lines: seq<string>, tail: string)
    requires |lines| >= 1
    requires forall k :: 0 <= k < |lines| ==> '\n' !in lines[k]
    requires lines[0] != [] && !IsWhitespace(lines[0][0])
    requires lines[|lines| - 1] != [] && !IsWhitespace(lines[|lines| - 1][|lines[|lines| - 1]| - 1])
    requires IsBlank(tail)
    ensures ParseOutput(Join(lines, '\n') + tail) == KeepNonBlank(lines)
  {
    var j := Join(lines, '\n');
    JoinEnds(lines, '\n');
    assert j[0] == lines[0][0];
    assert j[|j| - 1] == lines[|lines| - 1][|lines[|lines| - 1]| - 1];
    TrimBlankTail(j, tail);
    SplitJoin(lines, '\n');
  }

  /** Names that are non-blank, newline-free and not padded with whitespace,
      printed one per line with a final newline, parse back to themselves. */
  lemma ParseOutputRoundTrip(names: seq<string>)
    requires forall k :: 0 <= k < |names| ==>
      names[k] != [] && '\n' !in names[k] &&
      !IsWhitespace(names[k][0]) && !IsWhitespace(names[k][|names[k]| - 1])
    ensures ParseOutput(Join(names, '\n') + "\n") == names
  {
    if names == [] {
      assert IsBlank(Join(names, '\n') + "\n");
    } else {
      ParseOutputOfLines(names, "\n");
      assert forall k :: 0 <= k < |names| ==> !IsBlank(names[k]) by {
        forall k | 0 <= k < |names| ensures !IsBlank(names[k]) {
          assert !IsWhitespace(names[k][0]);
        }
      }
      KeepNonBlankAll(names);
    }
  }

  /** `getChildProcesses` for one parent pid: `query` stands for running the
      platform's listing command for that pid. A failed command yields []. */
  function GetChildProcesses(parentPid: int, query: int -> ExecResult): (r: seq<string>)
    ensures query(parentPid).Failed? ==> r == []
    ensures query(parentPid).Completed? ==> r == ParseOutput(query(parentPid).stdout)
  {
    match query(parentPid)
    case Failed => []
    case Completed(stdout) => ParseOutput(stdout)
  }
}
