/** The shell command of a command-based launch strategy: the backend's base command with
    every `$` escaped, then the action, the extras and the categories of the request. */
module CommandLaunch {
  import opened Outcomes
  import opened Text
  import opened Intents

  /** The number of times `c` occurs in `s`. */
  function Count(s: string, c: char): nat
  {
    if |s| == 0 then 0 else (if s[0] == c then 1 else 0) + Count(s[1..], c)
  }

  /** `makeEscapedCommand`: every `$` of the command is preceded by a backslash. */
  function Escape(s: string): (r: string)
    ensures |r| == |s| + Count(s, '$')
  {
    if |s| == 0 then ""
    else (if s[0] == '$' then "\\$" else [s[0]]) + Escape(s[1..])
  }

  /** Escaping works character by character, so it distributes over concatenation. */
  lemma {:induction false} EscapeAppend(a: string, b: string)
    ensures Escape(a + b) == Escape(a) + Escape(b)
  {
    if |a| > 0 {
      EscapeAppend(a[1..], b);
      assert (a + b)[0] == a[0];
      assert (a + b)[1..] == a[1..] + b;
      AppendAssoc(Escape([a[0]]), Escape(a[1..]), Escape(b));
    } else {
      assert a + b == b;
    }
  }

  /** A `$` becomes `\$` and every other character stays as it is. */
  lemma EscapeChar(c: char)
    ensures Escape([c]) == if c == '$' then "\\$" else [c]
  {
    assert [c][1..] == [];
  }

  /** A command without `$` passes through unchanged. */
  lemma {:induction false} EscapeWithoutDollar(s: string)
    requires '$' !in s
    ensures Escape(s) == s
  {
    if |s| > 0 {
      assert s[0] in s;
      assert forall c :: c in s[1..] ==> c in s;
      EscapeWithoutDollar(s[1..]);
      assert [s[0]] + s[1..] == s;
    }
  }

  /** In an escaped command every `$` stands right after a backslash. */
  lemma {:induction false} EscapedDollarsArePrefixed(s: string)
    ensures forall i :: 0 <= i < |Escape(s)| && Escape(s)[i] == '$' ==> i > 0 && Escape(s)[i - 1] == '\\'
  {
    if |s| > 0 {
      EscapedDollarsArePrefixed(s[1..]);
      var head := if s[0] == '$' then "\\$" else [s[0]];
      var r := Escape(s);
      assert r == head + Escape(s[1..]);
      EscapeStart(s[1..]);
      forall i | 0 <= i < |r| && r[i] == '$'
        ensures i > 0 && r[i - 1] == '\\'
      {
        if i >= |head| {
          assert r[i] == Escape(s[1..])[i - |head|];
        }
      }
    }
  }

  lemma EscapeStart(s: string)
    ensures |Escape(s)| > 0 ==> Escape(s)[0] != '$'
  {
  }

  /** Reads `\$` back as `$`; every other character is kept. */
  function Unescape(s: string): string
  {
    if |s| >= 2 && s[0] == '\\' && s[1] == '$' then "$" + Unescape(s[2..])
    else if |s| == 0 then ""
    else [s[0]] + Unescape(s[1..])
  }

  /** Escaping loses nothing: `Unescape` recovers the original base command. */
  lemma {:induction false} EscapeRoundTrip(s: string)
    ensures Unescape(Escape(s)) == s
  {
    if |s| > 0 {
      var rest := Escape(s[1..]);
      EscapeRoundTrip(s[1..]);
      if s[0] == '$' {
        assert Escape(s) == "\\$" + rest;
        assert ("\\$" + rest)[2..] == rest;
      } else {
        assert Escape(s) == [s[0]] + rest;
        EscapeStart(s[1..]);
        assert ([s[0]] + rest)[1..] == rest;
      }
      assert [s[0]] + s[1..] == s;
    }
  }

  /** The action as a string template renders it: a null action becomes the text `null`. */
  function ActionText(action: Option<string>): string
  {
    match action
    case None => "null"
    case Some(a) => a
  }

  function ActionSegment(action: Option<string>): string
  {
    " -a " + ActionText(action)
  }

  function ExtraSegment(e: Extra): string
  {
    " --" + e.shellFlag + " \"" + e.key + "\" \"" + e.value + "\""
  }

  function CategorySegment(c: string): string
  {
    " -c \"" + c + "\""
  }

  function ExtraSegments(extras: seq<Extra>): string
  {
    if |extras| == 0 then "" else ExtraSegment(extras[0]) + ExtraSegments(extras[1..])
  }

  function CategorySegments(cats: seq<string>): string
  {
    if |cats| == 0 then "" else CategorySegment(cats[0]) + CategorySegments(cats[1..])
  }

  /** What `addToCommand` appends to the base command. */
  function CommandSuffix(args: LaunchArgs): string
  {
    ActionSegment(args.intent.action) + ExtraSegments(args.extras) + CategorySegments(args.intent.categories)
  }

  /** The command a root launch runs: only the base command is escaped, not the suffix. */
  function RootCommand(base: string, args: LaunchArgs): string
  {
    Escape(base) + CommandSuffix(args)
  }

  /** The suffix opens with the action: its own text, or `null` when the intent has no action. */
  lemma SuffixStartsWithAction(args: LaunchArgs)
    ensures args.intent.action.Some? ==> " -a " + args.intent.action.value <= CommandSuffix(args)
    ensures args.intent.action.None? ==> " -a null" <= CommandSuffix(args)
  {
    var head := ActionSegment(args.intent.action);
    var tail := ExtraSegments(args.extras) + CategorySegments(args.intent.categories);
    AppendAssoc(head, ExtraSegments(args.extras), CategorySegments(args.intent.categories));
    assert (head + tail)[..|head|] == head;
  }

  /** Only the base command is escaped: the root command is the escaped base followed by the
      suffix exactly as built, and a base without `$` appears as it is. */
  lemma RootCommandLayout(base: string, args: LaunchArgs)
    ensures Escape(base) <= RootCommand(base, args)
    ensures RootCommand(base, args)[|Escape(base)|..] == CommandSuffix(args)
    ensures '$' !in base ==> RootCommand(base, args) == base + CommandSuffix(args)
  {
    var e := Escape(base);
    assert (e + CommandSuffix(args))[..|e|] == e;
    assert (e + CommandSuffix(args))[|e|..] == CommandSuffix(args);
    if '$' !in base {
      EscapeWithoutDollar(base);
    }
  }

  lemma {:induction false} ExtraSegmentsSnoc(extras: seq<Extra>, e: Extra)
    ensures ExtraSegments(extras + [e]) == ExtraSegments(extras) + ExtraSegment(e)
  {
    if |extras| == 0 {
      assert extras + [e] == [e];
      assert [e][1..] == [];
    } else {
      var rest := extras[1..];
      assert (extras + [e])[0] == extras[0];
      assert (extras + [e])[1..] == rest + [e];
      ExtraSegmentsSnoc(rest, e);
      AppendAssoc(ExtraSegment(extras[0]), ExtraSegments(rest), ExtraSegment(e));
    }
  }

  lemma {:induction false} CategorySegmentsSnoc(cats: seq<string>, c: string)
    ensures CategorySegments(cats + [c]) == CategorySegments(cats) + CategorySegment(c)
  {
    if |cats| == 0 {
      assert cats + [c] == [c];
      assert [c][1..] == [];
    } else {
      var rest := cats[1..];
      assert (cats + [c])[0] == cats[0];
      assert (cats + [c])[1..] == rest + [c];
      CategorySegmentsSnoc(rest, c);
      AppendAssoc(CategorySegment(cats[0]), CategorySegments(rest), CategorySegment(c));
    }
  }

  /** `LaunchArgs.addToCommand`: appends ` -a <action>`, then one ` --<flag> "<key>" "<value>"`
      per extra and one ` -c "<category>"` per category, each list in its order. */
  method AddToCommand(args: LaunchArgs, command: string) returns (built: string)
    ensures built == command + CommandSuffix(args)
  {
    built := command + ActionSegment(args.intent.action);
    if |args.extras| > 0 {
      built := AppendExtras(built, args.extras);
    }
    if |args.intent.categories| > 0 {
      built := AppendCategories(built, args.intent.categories);
    }
  }

  /** Appends one extra segment per extra, in list order. */
  method AppendExtras(command: string, extras: seq<Extra>) returns (built: string)
    ensures built == command + ExtraSegments(extras)
  {
    built := command;
    for i := 0 to |extras|
      invariant built == command + ExtraSegments(extras[..i])
    {
      ExtraSegmentsSnoc(extras[..i], extras[i]);
      assert extras[..i + 1] == extras[..i] + [extras[i]];
      AppendAssoc(command, ExtraSegments(extras[..i]), ExtraSegment(extras[i]));
      built := built + ExtraSegment(extras[i]);
    }
    assert extras[..|extras|] == extras;
  }

  /** Appends one category segment per category, in list order. */
  method AppendCategories(command: string, cats: seq<string>) returns (built: string)
    ensures built == command + CategorySegments(cats)
  {
    built := command;
    for i := 0 to |cats|
      invariant built == command + CategorySegments(cats[..i])
    {
      CategorySegmentsSnoc(cats[..i], cats[i]);
      assert cats[..i + 1] == cats[..i] + [cats[i]];
      AppendAssoc(command, CategorySegments(cats[..i]), CategorySegment(cats[i]));
      built := built + CategorySegment(cats[i]);
    }
    assert cats[..|cats|] == cats;
  }

  /** A command suffix as read back: the action text, the extras and the categories. */
  datatype ParsedSuffix = ParsedSuffix(actionText: string, extras: seq<Extra>, categories: seq<string>)

  /** Reads one ` -c "<category>"` segment: the category and the text after it. */
  function ParseCategorySegment(s: string): (r: Option<(string, string)>)
    ensures r.Some? ==> |r.value.1| < |s|
  {
    if |s| >= 5 && s[..5] == " -c \"" then TakeUntil(s[5..], '"') else None
  }

  /** Reads ` -c "<category>"` segments up to the end of the text. */
  function ParseCategories(s: string): Option<seq<string>>
    decreases |s|
  {
    if |s| == 0 then Some([])
    else
      match ParseCategorySegment(s)
      case None => None
      case Some(parts) =>
        match ParseCategories(parts.1)
        case None => None
        case Some(rest) => Some([parts.0] + rest)
  }

  /** Reads one ` --<flag> "<key>" "<value>"` segment: the extra and the text after it. */
  function ParseExtraSegment(s: string): (r: Option<(Extra, string)>)
    ensures r.Some? ==> |r.value.1| < |s|
  {
    if |s| >= 3 && s[..3] == " --" then
      match TakeUntil(s[3..], ' ')
      case None => None
      case Some(flagParts) =>
        var afterFlag := flagParts.1;
        if |afterFlag| >= 1 && afterFlag[0] == '"' then
          match TakeUntil(afterFlag[1..], '"')
          case None => None
          case Some(keyParts) =>
            var afterKey := keyParts.1;
            if |afterKey| >= 2 && afterKey[..2] == " \"" then
              match TakeUntil(afterKey[2..], '"')
              case None => None
              case Some(valueParts) => Some((Extra(keyParts.0, flagParts.0, valueParts.0), valueParts.1))
            else None
        else None
    else None
  }

  /** Reads the extra segments at the start of `s`; returns them and the rest. */
  function ParseExtras(s: string): Option<(seq<Extra>, string)>
    decreases |s|
  {
    if |s| >= 3 && s[..3] == " --" then
      match ParseExtraSegment(s)
      case None => None
      case Some(first) =>
        match ParseExtras(first.1)
        case None => None
        case Some(rest) => Some(([first.0] + rest.0, rest.1))
    else Some(([], s))
  }

  /** Reads a whole command suffix. */
  function ParseSuffix(s: string): Option<ParsedSuffix>
  {
    if |s| >= 4 && s[..4] == " -a " then
      var afterA := s[4..];
      var split := match TakeUntil(afterA, ' ')
        case None => (afterA, "")
        case Some(parts) => (parts.0, " " + parts.1);
      match ParseExtras(split.1)
      case None => None
      case Some(ex) =>
        match ParseCategories(ex.1)
        case None => None
        case Some(cats) => Some(ParsedSuffix(split.0, ex.0, cats))
    else None
  }

  /** The texts a suffix can be read back from: no space in the action or a flag, no quote in a
      key, a value or a category. */
  predicate Readable(args: LaunchArgs)
  {
    && ' ' !in ActionText(args.intent.action)
    && (forall i :: 0 <= i < |args.extras| ==> ReadableExtra(args.extras[i]))
    && (forall i :: 0 <= i < |args.intent.categories| ==> '"' !in args.intent.categories[i])
  }

  predicate ReadableExtra(e: Extra) {
    ' ' !in e.shellFlag && '"' !in e.key && '"' !in e.value
  }

  lemma ParseOneCategory(c: string, rest: string)
    requires '"' !in c
    ensures ParseCategorySegment(CategorySegment(c) + rest) == Some((c, rest))
  {
    var s := CategorySegment(c) + rest;
    assert s == " -c \"" + (c + ['"'] + rest);
    assert s[..5] == " -c \"";
    assert s[5..] == c + ['"'] + rest;
    TakeUntilSplits(c, '"', rest);
  }

  lemma {:induction false} CategoriesRoundTrip(cats: seq<string>)
    requires forall i :: 0 <= i < |cats| ==> '"' !in cats[i]
    ensures ParseCategories(CategorySegments(cats)) == Some(cats)
  {
    if |cats| > 0 {
      ParseOneCategory(cats[0], CategorySegments(cats[1..]));
      CategoriesRoundTrip(cats[1..]);
      assert [cats[0]] + cats[1..] == cats;
    }
  }

  lemma ParseOneExtra(e: Extra, rest: string)
    requires ReadableExtra(e)
    ensures ParseExtraSegment(ExtraSegment(e) + rest) == Some((e, rest))
  {
    var afterKey := " \"" + (e.value + ['"'] + rest);
    var afterFlag := "\"" + (e.key + ['"'] + afterKey);
    var s := ExtraSegment(e) + rest;
    assert s == " --" + (e.shellFlag + [' '] + afterFlag);
    assert s[..3] == " --";
    assert s[3..] == e.shellFlag + [' '] + afterFlag;
    TakeUntilSplits(e.shellFlag, ' ', afterFlag);
    assert afterFlag[1..] == e.key + ['"'] + afterKey;
    TakeUntilSplits(e.key, '"', afterKey);
    assert afterKey[..2] == " \"";
    assert afterKey[2..] == e.value + ['"'] + rest;
    TakeUntilSplits(e.value, '"', rest);
  }

  /** Reading an extra segment in front of readable extras reads that extra, then the rest. */
  lemma ParseExtrasCons(e: Extra, rest: string, more: (seq<Extra>, string))
    requires ReadableExtra(e)
    requires ParseExtras(rest) == Some(more)
    ensures ParseExtras(ExtraSegment(e) + rest) == Some(([e] + more.0, more.1))
  {
    var s := ExtraSegment(e) + rest;
    ParseOneExtra(e, rest);
    assert s[..3] == ExtraSegment(e)[..3] == " --";
  }

  lemma {:induction false} ExtrasRoundTrip(extras: seq<Extra>, tail: string)
    requires forall i :: 0 <= i < |extras| ==> ReadableExtra(extras[i])
    requires |tail| < 3 || tail[..3] != " --"
    ensures ParseExtras(ExtraSegments(extras) + tail) == Some((extras, tail))
  {
    if |extras| == 0 {
      assert ExtraSegments(extras) + tail == tail;
    } else {
      var rest := ExtraSegments(extras[1..]) + tail;
      ExtrasRoundTrip(extras[1..], tail);
      ParseExtrasCons(extras[0], rest, (extras[1..], tail));
      AppendAssoc(ExtraSegment(extras[0]), ExtraSegments(extras[1..]), tail);
      assert [extras[0]] + extras[1..] == extras;
    }
  }

  /** What follows the action text starts with a space, or is empty. */
  lemma AfterActionStartsWithSpace(args: LaunchArgs)
    ensures var rest := ExtraSegments(args.extras) + CategorySegments(args.intent.categories);
      rest == [] || rest[0] == ' '
  {
    if |args.extras| > 0 {
      assert ExtraSegments(args.extras)[0] == ExtraSegment(args.extras[0])[0];
    } else if |args.intent.categories| > 0 {
      assert CategorySegments(args.intent.categories)[0] == CategorySegment(args.intent.categories[0])[0];
    }
  }

  /** The action text ends at the first space, or at the end of the text. */
  lemma ActionEndsAtSpace(a: string, rest: string)
    requires ' ' !in a
    requires rest == [] || rest[0] == ' '
    ensures (match TakeUntil(a + rest, ' ')
             case None => (a + rest, "")
             case Some(parts) => (parts.0, " " + parts.1)) == (a, rest)
  {
    if rest == [] {
      assert a + rest == a;
    } else {
      assert a + rest == a + [' '] + rest[1..];
      TakeUntilSplits(a, ' ', rest[1..]);
      assert " " + rest[1..] == rest;
    }
  }

  lemma ParseSuffixParts(a: string, rest: string, catText: string, extras: seq<Extra>, cats: seq<string>)
    requires ' ' !in a
    requires rest == [] || rest[0] == ' '
    requires ParseExtras(rest) == Some((extras, catText))
    requires ParseCategories(catText) == Some(cats)
    ensures ParseSuffix(" -a " + (a + rest)) == Some(ParsedSuffix(a, extras, cats))
  {
    var s := " -a " + (a + rest);
    assert s[..4] == " -a ";
    assert s[4..] == a + rest;
    ActionEndsAtSpace(a, rest);
  }

  /** The suffix layout is unambiguous: the action, every extra and every category can be read
      back from it, in order. */
  lemma SuffixRoundTrip(args: LaunchArgs)
    requires Readable(args)
    ensures ParseSuffix(CommandSuffix(args)) ==
      Some(ParsedSuffix(ActionText(args.intent.action), args.extras, args.intent.categories))
  {
    var a := ActionText(args.intent.action);
    var cats := CategorySegments(args.intent.categories);
    var rest := ExtraSegments(args.extras) + cats;
    assert CommandSuffix(args) == " -a " + (a + rest);
    AfterActionStartsWithSpace(args);
    CategoriesRoundTrip(args.intent.categories);
    assert |cats| < 3 || cats[..3] != " --" by {
      if |args.intent.categories| > 0 {
        assert cats[2] == CategorySegment(args.intent.categories[0])[2] == 'c';
      }
    }
    ExtrasRoundTrip(args.extras, cats);
    ParseSuffixParts(a, rest, cats, args.extras, args.intent.categories);
  }
}
