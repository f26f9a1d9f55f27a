/**
 * The extension's settings under `codeReferenceCopier`: which terminal
 * applications receive auto-pasted references, whether auto-paste is on,
 * and the four reference templates with their defaults.
 * The workspace configuration is passed in as a snapshot.
 */
module ConfigurationManager {
  import opened Wrappers
  import opened JsString

  /** One entry of the `autoPasteApplications` array. The setting is not
      type-checked by the host, so an entry may be anything; every value that
      is not a string (null, undefined, a number, ...) is `NotString`. */
  datatype ConfigValue = Str(s: string) | NotString

  /** A snapshot of the configuration section; `None` is an unset key. */
  datatype Settings = Settings(
    autoPasteApplications: Option<seq<ConfigValue>>,
    templatePath: Option<string>,
    templateSingleLine: Option<string>,
    templateMultiLine: Option<string>,
    templateWithText: Option<string>)

  const DEFAULT_TEMPLATE_PATH: string := "{PATH} "
  const DEFAULT_TEMPLATE_SINGLE_LINE: string := "{PATH}:{LINE1} "
  const DEFAULT_TEMPLATE_MULTI_LINE: string := "{PATH}:{LINE1}-{LINE2} "
  const DEFAULT_TEMPLATE_WITH_TEXT: string := "\n\n{TEXT}\n\n"

  /** The filter test: a string whose trim is not empty. */
  predicate IsTargetEntry(v: ConfigValue) {
    v.Str? && |Trim(v.s)| > 0
  }

  /** The configured entries that pass the filter, verbatim and in order. */
  function FilterTargets(apps: seq<ConfigValue>): (r: seq<string>)
    ensures |r| <= |apps|
    ensures forall k :: 0 <= k < |r| ==> !IsBlank(r[k])
  {
    if apps == [] then []
    else
      var rest := FilterTargets(apps[1..]);
      if IsTargetEntry(apps[0]) then [apps[0].s] + rest else rest
  }

  /** A string is kept exactly when it is configured and not blank. */
  lemma {:induction false} FilterTargetsMembers(apps: seq<ConfigValue>, x: string)
    ensures x in FilterTargets(apps) <==> Str(x) in apps && !IsBlank(x)
  {
    if apps != [] {
      FilterTargetsMembers(apps[1..], x);
      assert Str(x) in apps <==> Str(x) == apps[0] || Str(x) in apps[1..];
    }
  }

  /** The filter distributes over concatenation, so with its action on a
      single entry it fixes the result, order included. */
  lemma {:induction false} FilterTargetsAppend(a: seq<ConfigValue>, b: seq<ConfigValue>)
    ensures FilterTargets(a + b) == FilterTargets(a) + FilterTargets(b)
  {
    if a != [] {
      assert (a + b)[0] == a[0];
      assert (a + b)[1..] == a[1..] + b;
      FilterTargetsAppend(a[1..], b);
      if IsTargetEntry(a[0]) {
        assert [a[0].s] + (FilterTargets(a[1..]) + FilterTargets(b))
          == ([a[0].s] + FilterTargets(a[1..])) + FilterTargets(b);
      }
    } else {
      assert a + b == b;
    }
  }

  /** The result is a subsequence of the configured strings. */
  lemma {:induction false} FilterTargetsSubsequence(apps: seq<ConfigValue>)
    ensures IsSubsequence(FilterTargets(apps), Strings(apps))
  {
    if apps != [] {
      FilterTargetsSubsequence(apps[1..]);
      var rest := FilterTargets(apps[1..]);
      if apps[0].Str? {
        var y := apps[0].s;
        assert ([y] + rest)[1..] == rest;
        assert ([y] + Strings(apps[1..]))[1..] == Strings(apps[1..]);
        SubsequenceCons(rest, y, Strings(apps[1..]));
      }
    }
  }

  /** The string entries of a configuration array, in order. */
  function Strings(apps: seq<ConfigValue>): seq<string> {
    if apps == [] then []
    else if apps[0].Str? then [apps[0].s] + Strings(apps[1..])
    else Strings(apps[1..])
  }

  /** xs can be obtained from ys by deleting elements. */
  predicate IsSubsequence<T(==)>(xs: seq<T>, ys: seq<T>)
    decreases |ys|
  {
    if xs == [] then true
    else if ys == [] then false
    else if xs[0] == ys[0] then IsSubsequence(xs[1..], ys[1..])
    else IsSubsequence(xs, ys[1..])
  }

  /** Putting an element in front of the longer sequence keeps a subsequence. */
  lemma {:induction false} SubsequenceCons<T>(xs: seq<T>, y: T, ys: seq<T>)
    requires IsSubsequence(xs, ys)
    ensures IsSubsequence(xs, [y] + ys)
    decreases |ys|, 1
  {
    assert ([y] + ys)[1..] == ys;
    if xs != [] && xs[0] == y {
      SubsequenceTail(xs, ys);
    }
  }

  /** Dropping the head of the shorter sequence keeps a subsequence. */
  lemma {:induction false} SubsequenceTail<T>(xs: seq<T>, ys: seq<T>)
    requires xs != [] && IsSubsequence(xs, ys)
    ensures IsSubsequence(xs[1..], ys)
    decreases |ys|, 0
  {
    if xs[0] == ys[0] {
      SubsequenceCons(xs[1..], ys[0], ys[1..]);
      assert [ys[0]] + ys[1..] == ys;
    } else {
      SubsequenceTail(xs, ys[1..]);
      SubsequenceCons(xs[1..], ys[0], ys[1..]);
      assert [ys[0]] + ys[1..] == ys;
    }
  }

  /** `getTargetApplications`: an unset key reads as the default []. */
  function TargetApplications(settings: Settings): (r: seq<string>)
    ensures settings.autoPasteApplications.None? ==> r == []
    ensures settings.autoPasteApplications.Some? ==>
      r == FilterTargets(settings.autoPasteApplications.value)
  {
    FilterTargets(settings.autoPasteApplications.GetOr([]))
  }

  /** `isAutoPasteEnabled`: on Linux only, and only when some configured
      entry is a non-blank string. */
  function IsAutoPasteEnabled(platform: string, settings: Settings): (b: bool)
    ensures b <==> (platform == "linux" && settings.autoPasteApplications.Some? &&
                    exists x :: Str(x) in settings.autoPasteApplications.value && !IsBlank(x))
  {
    var apps := TargetApplications(settings);
    assert settings.autoPasteApplications.Some? ==> forall x :: x in apps <==>
      Str(x) in settings.autoPasteApplications.value && !IsBlank(x) by {
      if settings.autoPasteApplications.Some? {
        forall x ensures x in apps <==> Str(x) in settings.autoPasteApplications.value && !IsBlank(x) {
          FilterTargetsMembers(settings.autoPasteApplications.value, x);
        }
      }
    }
    assert apps != [] ==> apps[0] in apps;
    platform == "linux" && |apps| > 0
  }

  /** The template getters: the configured string, or the default when unset. */
  function TemplatePath(settings: Settings): (r: string)
    ensures settings.templatePath.None? ==> r == DEFAULT_TEMPLATE_PATH
    ensures settings.templatePath.Some? ==> r == settings.templatePath.value
  {
    settings.templatePath.GetOr(DEFAULT_TEMPLATE_PATH)
  }

  function TemplateSingleLine(settings: Settings): (r: string)
    ensures settings.templateSingleLine.None? ==> r == DEFAULT_TEMPLATE_SINGLE_LINE
    ensures settings.templateSingleLine.Some? ==> r == settings.templateSingleLine.value
  {
    settings.templateSingleLine.GetOr(DEFAULT_TEMPLATE_SINGLE_LINE)
  }

  function TemplateMultiLine(settings: Settings): (r: string)
    ensures settings.templateMultiLine.None? ==> r == DEFAULT_TEMPLATE_MULTI_LINE
    ensures settings.templateMultiLine.Some? ==> r == settings.templateMultiLine.value
  {
    settings.templateMultiLine.GetOr(DEFAULT_TEMPLATE_MULTI_LINE)
  }

  function TemplateWithText(settings: Settings): (r: string)
    ensures settings.templateWithText.None? ==> r == DEFAULT_TEMPLATE_WITH_TEXT
    ensures settings.templateWithText.Some? ==> r == settings.templateWithText.value
  {
    settings.templateWithText.GetOr(DEFAULT_TEMPLATE_WITH_TEXT)
  }

  /** The filtering example exercised by the configuration tests:
      ['kiro-cli', '', '  ', 'copilot', null, undefined] keeps two entries. */
  lemma FilterTargetsExample()
    ensures FilterTargets([Str("kiro-cli"), Str(""), Str("  "), Str("copilot"), NotString, NotString])
      == ["kiro-cli", "copilot"]
  {
    KeptEntry("kiro-cli");
    KeptEntry("copilot");
    DroppedEntry("  ");
    FilterKeepsFirstAndFourth(Str("kiro-cli"), Str(""), Str("  "), Str("copilot"), NotString, NotString);
  }

  lemma KeptEntry(s: string)
    requires s != [] && !IsWhitespace(s[0])
    ensures IsTargetEntry(Str(s))
  {
  }

  lemma DroppedEntry(s: string)
    requires IsBlank(s)
    ensures !IsTargetEntry(Str(s))
  {
  }

  lemma FilterKeepsFirstAndFourth(a: ConfigValue, b: ConfigValue, c: ConfigValue,
                                  d: ConfigValue, e: ConfigValue, f: ConfigValue)
    requires IsTargetEntry(a) && IsTargetEntry(d)
    requires !IsTargetEntry(b) && !IsTargetEntry(c) && !IsTargetEntry(e) && !IsTargetEntry(f)
    ensures FilterTargets([a, b, c, d, e, f]) == [a.s, d.s]
  {
    assert FilterTargets([f]) == [];
    assert FilterTargets([e, f]) == [] by { assert [e, f][1..] == [f]; }
    assert FilterTargets([d, e, f]) == [d.s] by { assert [d, e, f][1..] == [e, f]; }
    assert FilterTargets([c, d, e, f]) == [d.s] by { assert [c, d, e, f][1..] == [d, e, f]; }
    assert FilterTargets([b, c, d, e, f]) == [d.s] by { assert [b, c, d, e, f][1..] == [c, d, e, f]; }
    assert [a, b, c, d, e, f][1..] == [b, c, d, e, f];
  }
}
