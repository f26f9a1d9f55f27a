/**
 * The terminal matcher: find the first open terminal whose shell has, within
 * MAX_DEPTH generations of descendants, a process whose command line holds
 * one of the target application names as a whole word, and paste text into
 * a terminal.
 *
 * The child enumerator is a parameter (`enumerate`), a total function from
 * a pid to that process's children in the order the OS lists them. The
 * search functions return, next to their boolean, the pids they hand to the
 * enumerator in call order, so that what the search does NOT look at can be
 * stated too.
 */
module TerminalDetector {
  import opened Wrappers
  import opened JsString

  /** How many generations below the shell are searched. */
  const MAX_DEPTH: int := 3

  /** A child process as the search reads it. */
  datatype ProcRecord = ProcRecord(pid: int, commandLine: string)

  /** The regular-expression assertion `\b` at index i: the characters on its
      two sides differ in being word characters (a string end counts as a
      non-word character). */
  predicate WordBoundary(s: string, i: int)
    requires 0 <= i <= |s|
  {
    (i > 0 && IsWordChar(s[i - 1])) != (i < |s| && IsWordChar(s[i]))
  }

  /** The pattern `\b<app>(?:\s|$)` matches s at index i, with app read as
      literal text. */
  predicate MatchesAt(s: string, app: string, i: int)
    requires 0 <= i <= |s|
  {
    && i + |app| <= |s|
    && WordBoundary(s, i)
    && s[i..i + |app|] == app
    && (i + |app| == |s| || IsWhitespace(s[i + |app|]))
  }

  /** `new RegExp(`\\b${app}(?:\\s|$)`).test(commandLine)` for an app name
      without regular-expression metacharacters. */
  predicate WordMatch(commandLine: string, app: string) {
    exists i :: 0 <= i <= |commandLine| && MatchesAt(commandLine, app, i)
  }

  /** Some target application matches the command line. */
  predicate MatchesAnyApp(commandLine: string, targetApps: seq<string>) {
    exists j :: 0 <= j < |targetApps| && WordMatch(commandLine, targetApps[j])
  }

  /** Some process of this level matches some target application. */
  predicate LevelMatch(children: seq<ProcRecord>, targetApps: seq<string>) {
    exists k :: 0 <= k < |children| && MatchesAnyApp(children[k].commandLine, targetApps)
  }

  /** An application name that starts with a word character matches a
      command line where it stands as its own word: at the start or after a
      non-word character such as `/`, and at the end or before whitespace.
      So "git" matches "git status" and "/usr/bin/git". */
  lemma WordMatchStandalone(prefix: string, app: string, suffix: string)
    requires |app| > 0 && IsWordChar(app[0])
    requires prefix == [] || !IsWordChar(prefix[|prefix| - 1])
    requires suffix == [] || IsWhitespace(suffix[0])
    ensures WordMatch(prefix + app + suffix, app)
  {
    var s := prefix + app + suffix;
    var i := |prefix|;
    assert s[i..i + |app|] == app;
    if i > 0 {
      assert s[i - 1] == prefix[|prefix| - 1];
    }
    assert s[i] == app[0];
    if suffix != [] {
      assert s[i + |app|] == suffix[0];
    }
    assert MatchesAt(s, app, i);
  }

  /** Whitespace and anything after a match keep it a match. */
  lemma WordMatchExtendRight(s: string, app: string, w: char, t: string)
    requires WordMatch(s, app) && IsWhitespace(w)
    ensures WordMatch(s + [w] + t, app)
  {
    var i :| 0 <= i <= |s| && MatchesAt(s, app, i);
    var s' := s + [w] + t;
    assert s'[i..i + |app|] == s[i..i + |app|];
    if i > 0 {
      assert s'[i - 1] == s[i - 1];
    }
    if i < |s| {
      assert s'[i] == s[i];
    } else {
      assert s'[i] == w;
    }
    if i + |app| < |s| {
      assert s'[i + |app|] == s[i + |app|];
    } else {
      assert s'[i + |app|] == w;
    }
    assert MatchesAt(s', app, i);
  }

  /** Text before a match that ends in a non-word character (a path such as
      `/usr/bin/`, or a space) keeps it a match. */
  lemma WordMatchExtendLeft(t: string, s: string, app: string)
    requires WordMatch(s, app)
    requires t == [] || !IsWordChar(t[|t| - 1])
    ensures WordMatch(t + s, app)
  {
    var i :| 0 <= i <= |s| && MatchesAt(s, app, i);
    MatchesAtShift(t, s, app, i);
  }

  lemma MatchesAtShift(t: string, s: string, app: string, i: int)
    requires 0 <= i <= |s| && MatchesAt(s, app, i)
    requires t == [] || !IsWordChar(t[|t| - 1])
    ensures MatchesAt(t + s, app, |t| + i)
  {
    var s' := t + s;
    var i' := |t| + i;
    BoundaryShift(t, s, i);
    assert s'[i'..i' + |app|] == s[i..i + |app|];
    if i + |app| < |s| {
      assert s'[i' + |app|] == s[i + |app|];
    }
  }

  lemma BoundaryShift(t: string, s: string, i: int)
    requires 0 <= i <= |s|
    requires t == [] || !IsWordChar(t[|t| - 1])
    ensures WordBoundary(t + s, |t| + i) == WordBoundary(s, i)
  {
    var s' := t + s;
    if i > 0 {
      assert s'[|t| + i - 1] == s[i - 1];
    } else if t != [] {
      assert s'[|t| - 1] == t[|t| - 1];
    }
    if i < |s| {
      assert s'[|t| + i] == s[i];
    }
  }

  /** "git" does not match "github-copilot": its one occurrence is followed
      by a word character. */
  lemma NoMatchInsideLongerName(s: string, app: string)
    requires s == "github-copilot" && app == "git"
    ensures !WordMatch(s, app)
  {
    forall i | 0 <= i <= |s|
      ensures !MatchesAt(s, app, i)
    {
      if i + |app| <= |s| && s[i..i + |app|] == app {
        assert s[i..i + |app|][0] == s[i];
        assert i == 0;
        assert s[3] == 'h';
      }
    }
  }

  /** "git" does not match "mygit": its one occurrence does not start a
      word. */
  lemma NoMatchInsideWord(s: string, app: string)
    requires s == "mygit" && app == "git"
    ensures !WordMatch(s, app)
  {
    forall i | 0 <= i <= |s|
      ensures !MatchesAt(s, app, i)
    {
      if i + |app| <= |s| && s[i..i + |app|] == app {
        assert s[i] == 'g';
        assert i == 2;
        assert IsWordChar(s[1]) && IsWordChar(s[2]);
      }
    }
  }

  /** Matching is case-sensitive: "kiro-cli" does not match "KIRO-CLI". */
  lemma NoMatchOtherCase(s: string, app: string)
    requires s == "KIRO-CLI" && app == "kiro-cli"
    ensures !WordMatch(s, app)
  {
    forall i | 0 <= i <= |s|
      ensures !MatchesAt(s, app, i)
    {
      if i + |app| <= |s| {
        assert i == 0;
        assert s[0] != app[0];
        assert s[i..i + |app|][0] == s[0];
      }
    }
  }

  /** A search result: whether a match was found, and the pids handed to
      the enumerator, in order. */
  datatype Outcome = Outcome(found: bool, calls: seq<int>)

  /** The number of generations a search started at `depth` still examines. */
  function Budget(depth: int): nat {
    if depth > MAX_DEPTH then 0 else MAX_DEPTH + 1 - depth
  }

  /** `searchProcessTree(pid, targetApps, depth)`. Past the depth cap nothing
      is enumerated; a match among pid's own children ends the search after
      one enumeration, without descending. */
  function SearchTree(enumerate: int -> seq<ProcRecord>, pid: int, targetApps: seq<string>,
                      depth: int): (r: Outcome)
    ensures depth > MAX_DEPTH ==> r == Outcome(false, [])
    ensures depth <= MAX_DEPTH ==> |r.calls| >= 1 && r.calls[0] == pid
    ensures depth <= MAX_DEPTH && LevelMatch(enumerate(pid), targetApps) ==> r == Outcome(true, [pid])
    decreases Budget(depth), 0
  {
    if depth > MAX_DEPTH then Outcome(false, [])
    else
      var children := enumerate(pid);
      if LevelMatch(children, targetApps) then Outcome(true, [pid])
      else
        var below := SearchBranches(enumerate, children, targetApps, depth + 1);
        Outcome(below.found, [pid] + below.calls)
  }

  /** The second loop of `searchProcessTree`: the subtrees of the children,
      one after the other, stopping at the first that reports a match. */
  function SearchBranches(enumerate: int -> seq<ProcRecord>, children: seq<ProcRecord>,
                          targetApps: seq<string>, depth: int): (r: Outcome)
    ensures children == [] ==> r == Outcome(false, [])
    decreases Budget(depth), |children| + 1
  {
    if children == [] then Outcome(false, [])
    else
      var first := SearchTree(enumerate, children[0].pid, targetApps, depth);
      if first.found then first
      else
        var rest := SearchBranches(enumerate, children[1..], targetApps, depth);
        Outcome(rest.found, first.calls + rest.calls)
  }

  /** The branch search succeeds exactly when some child's subtree does. */
  lemma {:induction false} SearchBranchesFound(enumerate: int -> seq<ProcRecord>, children: seq<ProcRecord>,
                                               targetApps: seq<string>, depth: int)
    ensures SearchBranches(enumerate, children, targetApps, depth).found <==>
      (exists k :: 0 <= k < |children| && SearchTree(enumerate, children[k].pid, targetApps, depth).found)
  {
    if children != [] {
      SearchBranchesFound(enumerate, children[1..], targetApps, depth);
      assert forall k :: 1 <= k < |children| ==> children[k] == children[1..][k - 1];
    }
  }

  /** A child whose subtree matches makes the branch search succeed. */
  lemma {:induction false} SearchBranchesFoundAt(enumerate: int -> seq<ProcRecord>, children: seq<ProcRecord>,
                                                 targetApps: seq<string>, depth: int, k: nat)
    requires k < |children| && SearchTree(enumerate, children[k].pid, targetApps, depth).found
    ensures SearchBranches(enumerate, children, targetApps, depth).found
  {
    if k > 0 && !SearchTree(enumerate, children[0].pid, targetApps, depth).found {
      assert children[1..][k - 1] == children[k];
      SearchBranchesFoundAt(enumerate, children[1..], targetApps, depth, k - 1);
    }
  }

  /** A successful branch search owes its success to one child's subtree. */
  lemma {:induction false} SearchBranchesFoundWhich(enumerate: int -> seq<ProcRecord>, children: seq<ProcRecord>,
                                                    targetApps: seq<string>, depth: int) returns (k: nat)
    requires SearchBranches(enumerate, children, targetApps, depth).found
    ensures k < |children| && SearchTree(enumerate, children[k].pid, targetApps, depth).found
    decreases |children|
  {
    if SearchTree(enumerate, children[0].pid, targetApps, depth).found {
      k := 0;
    } else {
      var j := SearchBranchesFoundWhich(enumerate, children[1..], targetApps, depth);
      k := j + 1;
    }
  }

  /** The enumerations of the subtrees of `children`, concatenated in order. */
  function CallsOf(enumerate: int -> seq<ProcRecord>, children: seq<ProcRecord>,
                   targetApps: seq<string>, depth: int): seq<int>
  {
    if children == [] then []
    else
      SearchTree(enumerate, children[0].pid, targetApps, depth).calls
        + CallsOf(enumerate, children[1..], targetApps, depth)
  }

  lemma {:induction false} CallsOfSnoc(enumerate: int -> seq<ProcRecord>, children: seq<ProcRecord>,
                                       c: ProcRecord, targetApps: seq<string>, depth: int)
    ensures CallsOf(enumerate, children + [c], targetApps, depth)
      == CallsOf(enumerate, children, targetApps, depth) + SearchTree(enumerate, c.pid, targetApps, depth).calls
  {
    if children == [] {
      assert children + [c] == [c];
      assert [c][1..] == [];
    } else {
      assert (children + [c])[0] == children[0];
      assert (children + [c])[1..] == children[1..] + [c];
      CallsOfSnoc(enumerate, children[1..], c, targetApps, depth);
    }
  }

  /** The calls of the first k + 1 subtrees: those of the first k, then
      those of subtree k. */
  lemma CallsOfStep(enumerate: int -> seq<ProcRecord>, children: seq<ProcRecord>,
                    targetApps: seq<string>, depth: int, k: nat)
    requires k < |children|
    ensures CallsOf(enumerate, children[..k + 1], targetApps, depth)
      == CallsOf(enumerate, children[..k], targetApps, depth)
         + SearchTree(enumerate, children[k].pid, targetApps, depth).calls
  {
    CallsOfSnoc(enumerate, children[..k], children[k], targetApps, depth);
    assert children[..k] + [children[k]] == children[..k + 1];
  }

  /** Subtrees that report no match are explored in full, one after the
      other, before the next child is looked at. */
  lemma {:induction false} SearchBranchesSkipsMisses(enumerate: int -> seq<ProcRecord>,
                                                     children: seq<ProcRecord>,
                                                     targetApps: seq<string>, depth: int, i: nat)
    requires i <= |children|
    requires forall j :: 0 <= j < i ==> !SearchTree(enumerate, children[j].pid, targetApps, depth).found
    ensures var tail := SearchBranches(enumerate, children[i..], targetApps, depth);
      SearchBranches(enumerate, children, targetApps, depth)
        == Outcome(tail.found, CallsOf(enumerate, children[..i], targetApps, depth) + tail.calls)
  {
    if i == 0 {
      assert children[..0] == [];
      assert children[0..] == children;
    } else {
      SearchBranchesSkipsMisses(enumerate, children, targetApps, depth, i - 1);
      var here := SearchTree(enumerate, children[i - 1].pid, targetApps, depth);
      var tail := SearchBranches(enumerate, children[i..], targetApps, depth);
      SearchBranchesUnfold(enumerate, children[i - 1..], targetApps, depth);
      assert children[i - 1..][1..] == children[i..];
      CallsOfSnoc(enumerate, children[..i - 1], children[i - 1], targetApps, depth);
      assert children[..i - 1] + [children[i - 1]] == children[..i];
      SkipStep(SearchBranches(enumerate, children, targetApps, depth),
               SearchBranches(enumerate, children[i - 1..], targetApps, depth), tail,
               CallsOf(enumerate, children[..i - 1], targetApps, depth), here.calls,
               CallsOf(enumerate, children[..i], targetApps, depth));
    }
  }

  /** The bookkeeping of one skipped subtree: its calls move from the
      remaining search into the calls already made. */
  lemma SkipStep(whole: Outcome, prev: Outcome, tail: Outcome,
                 before: seq<int>, here: seq<int>, after: seq<int>)
    requires whole == Outcome(prev.found, before + prev.calls)
    requires prev == Outcome(tail.found, here + tail.calls)
    requires after == before + here
    ensures whole == Outcome(tail.found, after + tail.calls)
  {
    assert before + (here + tail.calls) == (before + here) + tail.calls;
  }

  /** One step of the branch search past a child whose subtree fails. */
  lemma SearchBranchesUnfold(enumerate: int -> seq<ProcRecord>, children: seq<ProcRecord>,
                             targetApps: seq<string>, depth: int)
    requires children != [] && !SearchTree(enumerate, children[0].pid, targetApps, depth).found
    ensures var rest := SearchBranches(enumerate, children[1..], targetApps, depth);
      SearchBranches(enumerate, children, targetApps, depth)
        == Outcome(rest.found, SearchTree(enumerate, children[0].pid, targetApps, depth).calls + rest.calls)
  {
  }

  /** The search stops at the first child whose subtree matches: the
      enumerations are exactly those of that child's subtree and of the
      subtrees before it, so later siblings are never enumerated. */
  lemma SearchBranchesStopsAtFirstMatch(enumerate: int -> seq<ProcRecord>, children: seq<ProcRecord>,
                                        targetApps: seq<string>, depth: int, k: nat)
    requires k < |children|
    requires forall j :: 0 <= j < k ==> !SearchTree(enumerate, children[j].pid, targetApps, depth).found
    requires SearchTree(enumerate, children[k].pid, targetApps, depth).found
    ensures SearchBranches(enumerate, children, targetApps, depth)
      == Outcome(true, CallsOf(enumerate, children[..k + 1], targetApps, depth))
  {
    SearchBranchesSkipsMisses(enumerate, children, targetApps, depth, k);
    assert children[k..][0] == children[k];
    CallsOfStep(enumerate, children, targetApps, depth, k);
  }

  /** When no subtree matches, every subtree is explored in full. */
  lemma SearchBranchesExhausts(enumerate: int -> seq<ProcRecord>, children: seq<ProcRecord>,
                               targetApps: seq<string>, depth: int)
    requires forall j :: 0 <= j < |children| ==> !SearchTree(enumerate, children[j].pid, targetApps, depth).found
    ensures SearchBranches(enumerate, children, targetApps, depth)
      == Outcome(false, CallsOf(enumerate, children, targetApps, depth))
  {
    SearchBranchesSkipsMisses(enumerate, children, targetApps, depth, |children|);
    assert children[..|children|] == children;
  }

  /** p is a process g generations below root: a child for g = 1, a child
      of a child for g = 2, and so on. */
  ghost predicate IsDescendant(enumerate: int -> seq<ProcRecord>, root: int, p: ProcRecord, g: nat)
    decreases g
  {
    if g == 0 then false
    else if g == 1 then p in enumerate(root)
    else exists c :: c in enumerate(root) && IsDescendant(enumerate, c.pid, p, g - 1)
  }

  /** A match within the examined generations: some descendant 1 to
      Budget(depth) generations below pid has a command line matching a
      target application. */
  ghost predicate MatchWithin(enumerate: int -> seq<ProcRecord>, pid: int, targetApps: seq<string>, depth: int) {
    exists p, g :: 1 <= g <= Budget(depth) && IsDescendant(enumerate, pid, p, g) &&
      MatchesAnyApp(p.commandLine, targetApps)
  }

  /** The search reports a match exactly when some descendant within the
      generations it may examine (1 to Budget(depth), so 1 to 3 from the
      shell) has a command line matching a target application. */
  lemma SearchTreeFindsExactly(enumerate: int -> seq<ProcRecord>, pid: int,
                               targetApps: seq<string>, depth: int)
    ensures SearchTree(enumerate, pid, targetApps, depth).found <==> MatchWithin(enumerate, pid, targetApps, depth)
  {
    if SearchTree(enumerate, pid, targetApps, depth).found {
      SearchTreeSound(enumerate, pid, targetApps, depth);
    }
    if MatchWithin(enumerate, pid, targetApps, depth) {
      SearchTreeComplete(enumerate, pid, targetApps, depth);
    }
  }

  /** A reported match is a real match within the examined generations. */
  lemma {:induction false} SearchTreeSound(enumerate: int -> seq<ProcRecord>, pid: int,
                                           targetApps: seq<string>, depth: int)
    requires SearchTree(enumerate, pid, targetApps, depth).found
    ensures MatchWithin(enumerate, pid, targetApps, depth)
    decreases Budget(depth)
  {
    var children := enumerate(pid);
    if LevelMatch(children, targetApps) {
      var k :| 0 <= k < |children| && MatchesAnyApp(children[k].commandLine, targetApps);
      assert IsDescendant(enumerate, pid, children[k], 1);
    } else {
      var k := SearchBranchesFoundWhich(enumerate, children, targetApps, depth + 1);
      SearchTreeSound(enumerate, children[k].pid, targetApps, depth + 1);
      var p, g :| 1 <= g <= Budget(depth + 1) && IsDescendant(enumerate, children[k].pid, p, g) &&
        MatchesAnyApp(p.commandLine, targetApps);
      assert children[k] in children;
      assert IsDescendant(enumerate, pid, p, g + 1);
    }
  }

  /** Every match within the examined generations is reported. */
  lemma {:induction false} SearchTreeComplete(enumerate: int -> seq<ProcRecord>, pid: int,
                                              targetApps: seq<string>, depth: int)
    requires MatchWithin(enumerate, pid, targetApps, depth)
    ensures SearchTree(enumerate, pid, targetApps, depth).found
    decreases Budget(depth)
  {
    var children := enumerate(pid);
    if !LevelMatch(children, targetApps) {
      var k := MatchBelowChild(enumerate, pid, targetApps, depth);
      SearchTreeComplete(enumerate, children[k].pid, targetApps, depth + 1);
      SearchBranchesFoundAt(enumerate, children, targetApps, depth + 1, k);
    }
  }

  /** A match within the examined generations that is not among pid's own
      children lies within the examined generations below one of them. */
  lemma MatchBelowChild(enumerate: int -> seq<ProcRecord>, pid: int, targetApps: seq<string>, depth: int)
    returns (k: nat)
    requires MatchWithin(enumerate, pid, targetApps, depth)
    requires !LevelMatch(enumerate(pid), targetApps)
    ensures depth <= MAX_DEPTH
    ensures k < |enumerate(pid)| && MatchWithin(enumerate, enumerate(pid)[k].pid, targetApps, depth + 1)
  {
    var children := enumerate(pid);
    var p, g :| 1 <= g <= Budget(depth) && IsDescendant(enumerate, pid, p, g) &&
      MatchesAnyApp(p.commandLine, targetApps);
    if g == 1 {
      assert false;
    }
    var c :| c in children && IsDescendant(enumerate, c.pid, p, g - 1);
    k :| 0 <= k < |children| && children[k] == c;
  }

  /** An empty target list never matches. */
  lemma SearchTreeNoTargets(enumerate: int -> seq<ProcRecord>, pid: int, depth: int)
    ensures !SearchTree(enumerate, pid, [], depth).found
  {
    SearchTreeFindsExactly(enumerate, pid, [], depth);
  }

  /** The enumerator is only ever called on the starting pid and on its
      descendants above the last examined generation: from the shell
      (depth 1), on the shell and on generations 1 and 2; the processes of
      generation 3 are tested but never enumerated. */
  lemma {:induction false} SearchTreeEnumeratesWithin(enumerate: int -> seq<ProcRecord>, pid: int,
                                                      targetApps: seq<string>, depth: int, q: int)
    requires q in SearchTree(enumerate, pid, targetApps, depth).calls
    ensures q == pid || exists p, g :: 1 <= g < Budget(depth) && IsDescendant(enumerate, pid, p, g) && p.pid == q
    decreases Budget(depth)
  {
    var children := enumerate(pid);
    if q != pid && !LevelMatch(children, targetApps) {
      var below := SearchBranches(enumerate, children, targetApps, depth + 1);
      assert q in below.calls;
      var k := BranchCallsFrom(enumerate, children, targetApps, depth + 1, q);
      var c := children[k];
      SearchTreeEnumeratesWithin(enumerate, c.pid, targetApps, depth + 1, q);
      if q == c.pid {
        assert IsDescendant(enumerate, pid, c, 1);
      } else {
        var p, g :| 1 <= g < Budget(depth + 1) && IsDescendant(enumerate, c.pid, p, g) && p.pid == q;
        assert IsDescendant(enumerate, pid, p, g + 1);
      }
    }
  }

  /** Every enumeration of a branch search belongs to one child's subtree. */
  lemma {:induction false} BranchCallsFrom(enumerate: int -> seq<ProcRecord>, children: seq<ProcRecord>,
                                           targetApps: seq<string>, depth: int, q: int) returns (k: nat)
    requires q in SearchBranches(enumerate, children, targetApps, depth).calls
    ensures k < |children| && q in SearchTree(enumerate, children[k].pid, targetApps, depth).calls
    decreases |children|
  {
    var first := SearchTree(enumerate, children[0].pid, targetApps, depth);
    if q in first.calls {
      k := 0;
    } else {
      var j := BranchCallsFrom(enumerate, children[1..], targetApps, depth, q);
      k := j + 1;
    }
  }

  /** `if (processId)`: the pid is present and not 0. */
  predicate IsTruthyPid(processId: Option<int>) {
    processId.Some? && processId.value != 0
  }

  /** One iteration of `findMatchingTerminal`: a terminal without a usable
      pid is skipped without enumerating anything. */
  function TerminalSearch(enumerate: int -> seq<ProcRecord>, processId: Option<int>,
                          targetApps: seq<string>): (r: Outcome)
    ensures !IsTruthyPid(processId) ==> r == Outcome(false, [])
    ensures IsTruthyPid(processId) ==> |r.calls| >= 1 && r.calls[0] == processId.value
  {
    if IsTruthyPid(processId) then SearchTree(enumerate, processId.value, targetApps, 1)
    else Outcome(false, [])
  }

  /** A terminal lookup: the index of the terminal found, and the pids
      handed to the enumerator, in order. */
  datatype Lookup = Lookup(index: Option<nat>, calls: seq<int>)

  /** The loop of `findMatchingTerminal` over the terminals' process ids, in
      list order, with `search` the search run for one terminal (in the
      extension, `TerminalSearch` on the target applications); no terminal
      found is `None`. */
  function FindTerminal(search: Option<int> -> Outcome, processIds: seq<Option<int>>): (r: Lookup)
    ensures r.index.Some? ==> r.index.value < |processIds|
  {
    if processIds == [] then Lookup(None, [])
    else
      var here := search(processIds[0]);
      if here.found then Lookup(Some(0), here.calls)
      else
        var rest := FindTerminal(search, processIds[1..]);
        Lookup(if rest.index.Some? then Some(rest.index.value + 1) else None, here.calls + rest.calls)
  }

  /** The first terminal, in list order, whose search matches is the one
      found; `None` exactly when no terminal's search matches. */
  lemma {:induction false} FindTerminalFirstMatch(search: Option<int> -> Outcome, processIds: seq<Option<int>>)
    ensures var r := FindTerminal(search, processIds);
      && (r.index.Some? ==>
            && search(processIds[r.index.value]).found
            && forall j :: 0 <= j < r.index.value ==> !search(processIds[j]).found)
      && (r.index.None? <==> forall j :: 0 <= j < |processIds| ==> !search(processIds[j]).found)
  {
    if processIds != [] {
      FindTerminalFirstMatch(search, processIds[1..]);
      assert forall j :: 1 <= j < |processIds| ==> processIds[j] == processIds[1..][j - 1];
    }
  }

  /** A terminal whose pid is missing or 0 is never the one found. */
  lemma FindTerminalHasPid(enumerate: int -> seq<ProcRecord>, processIds: seq<Option<int>>,
                           targetApps: seq<string>)
    ensures var r := FindTerminal(p => TerminalSearch(enumerate, p, targetApps), processIds);
      r.index.Some? ==> IsTruthyPid(processIds[r.index.value])
  {
    FindTerminalFirstMatch(p => TerminalSearch(enumerate, p, targetApps), processIds);
  }

  /** The enumerations of the terminals' searches, concatenated in order. */
  function AllCalls(search: Option<int> -> Outcome, processIds: seq<Option<int>>): seq<int>
  {
    if processIds == [] then []
    else search(processIds[0]).calls + AllCalls(search, processIds[1..])
  }

  lemma {:induction false} AllCallsSnoc(search: Option<int> -> Outcome, processIds: seq<Option<int>>,
                                        p: Option<int>)
    ensures AllCalls(search, processIds + [p]) == AllCalls(search, processIds) + search(p).calls
  {
    if processIds == [] {
      assert processIds + [p] == [p];
      assert [p][1..] == [];
    } else {
      assert (processIds + [p])[0] == processIds[0];
      assert (processIds + [p])[1..] == processIds[1..] + [p];
      AllCallsSnoc(search, processIds[1..], p);
    }
  }

  /** The calls for the first i + 1 terminals: those for the first i, then
      those for terminal i. */
  lemma AllCallsStep(search: Option<int> -> Outcome, processIds: seq<Option<int>>, i: nat)
    requires i < |processIds|
    ensures AllCalls(search, processIds[..i + 1])
      == AllCalls(search, processIds[..i]) + search(processIds[i]).calls
  {
    AllCallsSnoc(search, processIds[..i], processIds[i]);
    assert processIds[..i] + [processIds[i]] == processIds[..i + 1];
  }

  /** The lookup stops at the first terminal whose search matches, having
      searched from every terminal up to it. */
  lemma FindTerminalStopsAtFirstMatch(search: Option<int> -> Outcome, processIds: seq<Option<int>>, i: nat)
    requires i < |processIds|
    requires forall j :: 0 <= j < i ==> !search(processIds[j]).found
    requires search(processIds[i]).found
    ensures FindTerminal(search, processIds) == Lookup(Some(i), AllCalls(search, processIds[..i + 1]))
  {
    FindTerminalSkipsMisses(search, processIds, i);
    assert processIds[i..][0] == processIds[i];
    AllCallsStep(search, processIds, i);
  }

  /** When no terminal matches, the lookup finds nothing, having searched
      from every terminal. */
  lemma FindTerminalExhausts(search: Option<int> -> Outcome, processIds: seq<Option<int>>)
    requires forall j :: 0 <= j < |processIds| ==> !search(processIds[j]).found
    ensures FindTerminal(search, processIds) == Lookup(None, AllCalls(search, processIds))
  {
    FindTerminalSkipsMisses(search, processIds, |processIds|);
    assert processIds[..|processIds|] == processIds;
  }

  /** Terminals that do not match are searched in full, in order, before
      the next one is tried. */
  lemma {:induction false} FindTerminalSkipsMisses(search: Option<int> -> Outcome,
                                                   processIds: seq<Option<int>>, i: nat)
    requires i <= |processIds|
    requires forall j :: 0 <= j < i ==> !search(processIds[j]).found
    ensures var tail := FindTerminal(search, processIds[i..]);
      FindTerminal(search, processIds)
        == Lookup(if tail.index.Some? then Some(tail.index.value + i) else None,
                  AllCalls(search, processIds[..i]) + tail.calls)
  {
    if i == 0 {
      assert processIds[..0] == [];
      assert processIds[0..] == processIds;
    } else {
      FindTerminalSkipsMisses(search, processIds, i - 1);
      var here := search(processIds[i - 1]);
      var prev := FindTerminal(search, processIds[i - 1..]);
      var tail := FindTerminal(search, processIds[i..]);
      FindTerminalUnfold(search, processIds[i - 1..]);
      assert processIds[i - 1..][1..] == processIds[i..];
      assert prev.calls == here.calls + tail.calls;
      AllCallsSnoc(search, processIds[..i - 1], processIds[i - 1]);
      assert processIds[..i - 1] + [processIds[i - 1]] == processIds[..i];
      var before := AllCalls(search, processIds[..i - 1]);
      assert before + (here.calls + tail.calls) == (before + here.calls) + tail.calls;
    }
  }

  /** One step of the lookup past a terminal whose search fails. */
  lemma FindTerminalUnfold(search: Option<int> -> Outcome, processIds: seq<Option<int>>)
    requires processIds != [] && !search(processIds[0]).found
    ensures var rest := FindTerminal(search, processIds[1..]);
      FindTerminal(search, processIds)
        == Lookup(if rest.index.Some? then Some(rest.index.value + 1) else None,
                  search(processIds[0]).calls + rest.calls)
  {
  }

  /** The terminals after the one found are never searched: the
      enumerations are those of the terminals up to and including it, or of
      all terminals when none is found. */
  lemma FindTerminalCalls(search: Option<int> -> Outcome, processIds: seq<Option<int>>)
    ensures var r := FindTerminal(search, processIds);
      && (r.index.Some? ==> r.calls == AllCalls(search, processIds[..r.index.value + 1]))
      && (r.index.None? ==> r.calls == AllCalls(search, processIds))
  {
    var r := FindTerminal(search, processIds);
    FindTerminalFirstMatch(search, processIds);
    if r.index.Some? {
      var k := r.index.value;
      FindTerminalSkipsMisses(search, processIds, k);
      assert processIds[k..][0] == processIds[k];
      AllCallsSnoc(search, processIds[..k], processIds[k]);
      assert processIds[..k] + [processIds[k]] == processIds[..k + 1];
    } else {
      FindTerminalSkipsMisses(search, processIds, |processIds|);
      assert processIds[..|processIds|] == processIds;
    }
  }

  /** No target applications, or no terminals: nothing is found. */
  lemma FindTerminalEmptyInputs(enumerate: int -> seq<ProcRecord>, processIds: seq<Option<int>>,
                                targetApps: seq<string>)
    requires processIds == [] || targetApps == []
    ensures FindTerminal(p => TerminalSearch(enumerate, p, targetApps), processIds).index == None
  {
    var search := p => TerminalSearch(enumerate, p, targetApps);
    FindTerminalFirstMatch(search, processIds);
    forall j | 0 <= j < |processIds|
      ensures !search(processIds[j]).found
    {
      if IsTruthyPid(processIds[j]) {
        SearchTreeNoTargets(enumerate, processIds[j].value, 1);
      }
    }
  }

  /** What `String(undefined)` gives: the text a regular expression tests
      when handed an absent property. */
  const Undefined: string := "undefined"

  /** `searchProcessTree` as written against `getChildProcesses`, which
      yields process names (strings), not records: `process.commandLine` of
      a string is undefined, so each child tests the text "undefined", and
      `process.pid` is undefined, so each recursion enumerates from an
      absent pid (`None`). `listNames` is the listing per pid. */
  function AsWrittenSearch(listNames: Option<int> -> seq<string>, pid: Option<int>, targetApps: seq<string>,
                           currentDepth: int): bool
    decreases Budget(currentDepth), 0
  {
    if currentDepth > MAX_DEPTH then false
    else
      var childProcesses := listNames(pid);
      if |childProcesses| > 0 && MatchesAnyApp(Undefined, targetApps) then true
      else AsWrittenBranches(listNames, |childProcesses|, targetApps, currentDepth + 1)
  }

  /** The second loop as written: n children, each searched from the
      absent pid. */
  function AsWrittenBranches(listNames: Option<int> -> seq<string>, n: nat, targetApps: seq<string>,
                             depth: int): bool
    decreases Budget(depth), n + 1
  {
    if n == 0 then false
    else AsWrittenSearch(listNames, None, targetApps, depth) || AsWrittenBranches(listNames, n - 1, targetApps, depth)
  }

  /** As written, the search can only ever succeed for a target application
      that matches the text "undefined", whatever processes run. */
  lemma {:induction false} AsWrittenNeverFinds(listNames: Option<int> -> seq<string>, pid: Option<int>,
                                               targetApps: seq<string>, depth: int)
    requires !MatchesAnyApp(Undefined, targetApps)
    ensures !AsWrittenSearch(listNames, pid, targetApps, depth)
    decreases Budget(depth), 0
  {
    if depth <= MAX_DEPTH {
      AsWrittenBranchesNeverFind(listNames, |listNames(pid)|, targetApps, depth + 1);
    }
  }

  lemma {:induction false} AsWrittenBranchesNeverFind(listNames: Option<int> -> seq<string>, n: nat,
                                                      targetApps: seq<string>, depth: int)
    requires !MatchesAnyApp(Undefined, targetApps)
    ensures !AsWrittenBranches(listNames, n, targetApps, depth)
    decreases Budget(depth), n + 1
  {
    if n > 0 {
      AsWrittenNeverFinds(listNames, None, targetApps, depth);
      AsWrittenBranchesNeverFind(listNames, n - 1, targetApps, depth);
    }
  }

  /** "kiro-cli" does not match the text "undefined". */
  lemma KiroCliMissesUndefined(targetApps: seq<string>)
    requires targetApps == ["kiro-cli"]
    ensures !MatchesAnyApp(Undefined, targetApps)
  {
    var app := targetApps[0];
    forall i | 0 <= i <= |Undefined|
      ensures !MatchesAt(Undefined, app, i)
    {
      if i + |app| <= |Undefined| {
        assert Undefined[i..i + |app|][0] == Undefined[i];
        assert Undefined[i] != 'k';
      }
    }
  }

  /** The shell 1234 runs `bash`, `kiro-cli` and `vim`, the target is
      "kiro-cli": as written the search reports no match, while the search
      over records of the same processes finds `kiro-cli` among the shell's
      children. */
  lemma AsWrittenMissesRunningApp(listNames: Option<int> -> seq<string>, enumerate: int -> seq<ProcRecord>,
                                  targetApps: seq<string>, p1: int, p2: int, p3: int)
    requires listNames(Some(1234)) == ["bash", "kiro-cli", "vim"]
    requires enumerate(1234) == [ProcRecord(p1, "bash"), ProcRecord(p2, "kiro-cli"), ProcRecord(p3, "vim")]
    requires targetApps == ["kiro-cli"]
    ensures !AsWrittenSearch(listNames, Some(1234), targetApps, 1)
    ensures SearchTree(enumerate, 1234, targetApps, 1) == Outcome(true, [1234])
  {
    KiroCliMissesUndefined(targetApps);
    AsWrittenNeverFinds(listNames, Some(1234), targetApps, 1);
    var kiro := enumerate(1234)[1].commandLine;
    assert kiro == [] + targetApps[0] + [];
    WordMatchStandalone([], targetApps[0], []);
    assert MatchesAnyApp(enumerate(1234)[1].commandLine, targetApps);
  }

  /** A shell without children has nothing to match: only its own
      enumeration happens. */
  lemma SearchTreeNoChildren(enumerate: int -> seq<ProcRecord>, pid: int, targetApps: seq<string>, depth: int)
    requires depth <= MAX_DEPTH && enumerate(pid) == []
    ensures SearchTree(enumerate, pid, targetApps, depth) == Outcome(false, [pid])
  {
    assert !LevelMatch(enumerate(pid), targetApps);
  }

  /** The first loop of `searchProcessTree`: every child against every
      target application, stopping at the first match. */
  method CheckLevel(childProcesses: seq<ProcRecord>, targetApps: seq<string>) returns (matched: bool)
    ensures matched == LevelMatch(childProcesses, targetApps)
  {
    for i := 0 to |childProcesses|
      invariant forall k :: 0 <= k < i ==> !MatchesAnyApp(childProcesses[k].commandLine, targetApps)
    {
      for j := 0 to |targetApps|
        invariant forall m :: 0 <= m < j ==> !WordMatch(childProcesses[i].commandLine, targetApps[m])
      {
        if WordMatch(childProcesses[i].commandLine, targetApps[j]) {
          assert MatchesAnyApp(childProcesses[i].commandLine, targetApps);
          return true;
        }
      }
    }
    return false;
  }

  /** `searchProcessTree` as the source runs it: the depth cap, one
      enumeration, the check of that level, then the children's subtrees.
      `calls` are the pids handed to the enumerator. */
  method SearchProcessTree(enumerate: int -> seq<ProcRecord>, pid: int, targetApps: seq<string>,
                           currentDepth: int) returns (found: bool, ghost calls: seq<int>)
    ensures Outcome(found, calls) == SearchTree(enumerate, pid, targetApps, currentDepth)
    decreases Budget(currentDepth), 0
  {
    if currentDepth > MAX_DEPTH {
      return false, [];
    }
    var childProcesses := enumerate(pid);
    var levelMatch := CheckLevel(childProcesses, targetApps);
    if levelMatch {
      return true, [pid];
    }
    ghost var below;
    found, below := SearchChildren(enumerate, childProcesses, targetApps, currentDepth + 1);
    calls := [pid] + below;
  }

  /** The second loop of `searchProcessTree`: the children's subtrees in
      order, returning at the first that reports a match. */
  method SearchChildren(enumerate: int -> seq<ProcRecord>, childProcesses: seq<ProcRecord>,
                        targetApps: seq<string>, depth: int) returns (found: bool, ghost calls: seq<int>)
    ensures Outcome(found, calls) == SearchBranches(enumerate, childProcesses, targetApps, depth)
    decreases Budget(depth), 1
  {
    calls := [];
    for k := 0 to |childProcesses|
      invariant calls == CallsOf(enumerate, childProcesses[..k], targetApps, depth)
      invariant forall j :: 0 <= j < k ==> !SearchTree(enumerate, childProcesses[j].pid, targetApps, depth).found
    {
      var sub;
      ghost var subCalls;
      sub, subCalls := SearchProcessTree(enumerate, childProcesses[k].pid, targetApps, depth);
      CallsOfStep(enumerate, childProcesses, targetApps, depth, k);
      calls := calls + subCalls;
      if sub {
        SearchBranchesStopsAtFirstMatch(enumerate, childProcesses, targetApps, depth, k);
        return true, calls;
      }
    }
    SearchBranchesExhausts(enumerate, childProcesses, targetApps, depth);
    assert childProcesses[..|childProcesses|] == childProcesses;
    found := false;
  }

  /** One entry of `sendText`'s record: the text, and whether it was to be
      executed. */
  datatype SentText = SentText(text: string, execute: bool)

  /** A VS Code terminal as the extension uses it: its shell's process id
      (absent while the shell starts), and the texts sent to it and whether
      it was shown. `sendTextThrows` and `showThrows` say whether the host
      throws on those calls. */
  class Terminal {
    const processId: Option<int>
    const sendTextThrows: bool
    const showThrows: bool
    var sent: seq<SentText>
    var shown: bool

    constructor(processId: Option<int>, sendTextThrows: bool, showThrows: bool)
      ensures this.processId == processId
      ensures this.sendTextThrows == sendTextThrows && this.showThrows == showThrows
      ensures sent == [] && !shown
    {
      this.processId := processId;
      this.sendTextThrows := sendTextThrows;
      this.showThrows := showThrows;
      sent := [];
      shown := false;
    }

    /** `terminal.sendText(text, shouldExecute)`; `threw` is whether it
        threw, in which case nothing was sent. */
    method SendText(text: string, shouldExecute: bool) returns (threw: bool)
      modifies this
      ensures threw == sendTextThrows
      ensures sent == if threw then old(sent) else old(sent) + [SentText(text, shouldExecute)]
      ensures shown == old(shown)
    {
      threw := sendTextThrows;
      if !threw {
        sent := sent + [SentText(text, shouldExecute)];
      }
    }

    /** `terminal.show()`; `threw` is whether it threw. */
    method Show() returns (threw: bool)
      modifies this
      ensures threw == showThrows
      ensures shown == (old(shown) || !threw)
      ensures sent == old(sent)
    {
      threw := showThrows;
      if !threw {
        shown := true;
      }
    }
  }

  /** `pasteToTerminal`: the text is sent unchanged and not executed, then
      the terminal is shown; true exactly when neither call threw. A throw
      is caught: it only makes the result false, and a throw of `sendText`
      skips `show`. */
  method PasteToTerminal(terminal: Terminal, text: string) returns (ok: bool)
    modifies terminal
    ensures ok == (!terminal.sendTextThrows && !terminal.showThrows)
    ensures terminal.sent == if terminal.sendTextThrows then old(terminal.sent)
                             else old(terminal.sent) + [SentText(text, false)]
    ensures terminal.shown == (old(terminal.shown) || ok)
  {
    var threw := terminal.SendText(text, false);
    if threw {
      return false;
    }
    threw := terminal.Show();
    ok := !threw;
  }

  /** The terminals' process ids, in list order. */
  function ProcessIds(terminals: seq<Terminal>): (ids: seq<Option<int>>)
    ensures |ids| == |terminals|
    ensures forall k :: 0 <= k < |terminals| ==> ids[k] == terminals[k].processId
  {
    seq(|terminals|, k requires 0 <= k < |terminals| => terminals[k].processId)
  }

  /** One terminal's turn in `findMatchingTerminal`: the tree search from
      its shell, when it has a truthy process id. */
  method SearchFromTerminal(enumerate: int -> seq<ProcRecord>, processId: Option<int>,
                            targetApps: seq<string>) returns (found: bool, ghost calls: seq<int>)
    ensures Outcome(found, calls) == TerminalSearch(enumerate, processId, targetApps)
  {
    found, calls := false, [];
    if IsTruthyPid(processId) {
      found, calls := SearchProcessTree(enumerate, processId.value, targetApps, 1);
    }
  }

  /** `findMatchingTerminal` as the source runs it: the terminals in order,
      skipping those without a usable pid, returning the first whose search
      succeeds, or null. `calls` are the pids handed to the enumerator. */
  method FindMatchingTerminal(enumerate: int -> seq<ProcRecord>, terminals: seq<Terminal>,
                              targetApps: seq<string>) returns (terminal: Terminal?, ghost calls: seq<int>)
    ensures var r := FindTerminal(p => TerminalSearch(enumerate, p, targetApps), ProcessIds(terminals));
      && calls == r.calls
      && (r.index.None? ==> terminal == null)
      && (r.index.Some? ==> terminal == terminals[r.index.value])
  {
    ghost var search := p => TerminalSearch(enumerate, p, targetApps);
    ghost var ids := ProcessIds(terminals);
    calls := [];
    for i := 0 to |terminals|
      invariant calls == AllCalls(search, ids[..i])
      invariant forall j :: 0 <= j < i ==> !search(ids[j]).found
    {
      var found;
      ghost var here;
      found, here := SearchFromTerminal(enumerate, terminals[i].processId, targetApps);
      assert search(ids[i]) == Outcome(found, here);
      AllCallsStep(search, ids, i);
      calls := calls + here;
      if found {
        FindTerminalStopsAtFirstMatch(search, ids, i);
        return terminals[i], calls;
      }
    }
    FindTerminalExhausts(search, ids);
    assert ids[..|ids|] == ids;
    terminal := null;
  }
}
