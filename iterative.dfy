/** The iterative fallback strategy: for a component without a direct launch path, derive one
    intent per declared intent filter and try them in order until one launch succeeds. */
module IterativeLaunch {
  import opened Outcomes
  import opened Intents
  import opened Sdk

  /** `IterativeLaunchStrategy.canRun`: from API level M on, and only with at least one filter. */
  function CanRun(sdk: int, args: LaunchArgs): (r: bool)
    ensures args.filters == [] ==> !r
    ensures sdk < M ==> !r
    ensures r <==> sdk >= M && |args.filters| > 0
  {
    sdk >= M && |args.filters| > 0
  }

  /** `Intent.addFlags`: every flag the intent had stays set, and of the others exactly those in
      `flags` become set. Nothing but the flags changes. */
  function AddFlags(intent: Intent, flags: bv32): (r: Intent)
    ensures r.flags & !intent.flags == flags & !intent.flags
    ensures r.flags & intent.flags == intent.flags
    ensures r.(flags := intent.flags) == intent
  {
    intent.(flags := intent.flags | flags)
  }

  /** The placeholder data URI for a scheme: `<scheme>://yes`. */
  function PlaceholderUri(scheme: string): string
  {
    scheme + "://yes"
  }

  /** The intent tried for filter `f`: a copy of `base` with the extra flags added and its
      categories cleared. It has the filter's first action or ACTION_MAIN, the placeholder URI of
      the filter's first scheme or no data, no MIME type (setting the data clears it), the target
      component of the request, and the filter's categories (`DerivedIntentCategories`). */
  function DerivedIntent(base: Intent, f: IntentFilter, extraFlags: Option<bv32>): (r: Intent)
    ensures r.action == Some(if |f.actions| > 0 then f.actions[0] else ACTION_MAIN)
    ensures r.data == (if |f.schemes| > 0 then Some(PlaceholderUri(f.schemes[0])) else None)
    ensures r.mimeType == None
    ensures r.component == base.component
  {
    AddCategories(PreparedIntent(base, f, extraFlags), f.categories)
  }

  /** The copy of `base` before the filter's categories are added. */
  function PreparedIntent(base: Intent, f: IntentFilter, extraFlags: Option<bv32>): Intent
  {
    var flagged := if extraFlags.Some? then AddFlags(base, extraFlags.value) else base;
    flagged.(
      categories := [],
      action := Some(if |f.actions| > 0 then f.actions[0] else ACTION_MAIN),
      data := if |f.schemes| > 0 then Some(PlaceholderUri(f.schemes[0])) else None,
      mimeType := None)
  }

  /** A derived intent holds exactly the filter's categories, none of the request's, without
      repeats, and in the filter's order when the filter lists none twice. */
  lemma DerivedIntentCategories(base: Intent, f: IntentFilter, extraFlags: Option<bv32>)
    ensures forall c :: c in DerivedIntent(base, f, extraFlags).categories <==> c in f.categories
    ensures Distinct(DerivedIntent(base, f, extraFlags).categories)
    ensures Distinct(f.categories) ==> DerivedIntent(base, f, extraFlags).categories == f.categories
  {
    var prepared := PreparedIntent(base, f, extraFlags);
    assert prepared.categories == [];
    AddDistinctCategories(prepared, f.categories);
  }

  /** A derived intent carries the extra flags on top of the request's own flags; with no extra
      flags, which is what the default `extraFlags()` gives, it carries just the request's. */
  lemma DerivedIntentFlags(base: Intent, f: IntentFilter, extraFlags: Option<bv32>)
    ensures DerivedIntent(base, f, extraFlags).flags ==
      (if extraFlags.Some? then base.flags | extraFlags.value else base.flags)
  {
  }

  /** The steps of the loop body that build the intent for one filter, done on a copy of `base`. */
  method DeriveIntent(base: Intent, f: IntentFilter, extraFlags: Option<bv32>) returns (intent: Intent)
    ensures intent == DerivedIntent(base, f, extraFlags)
  {
    intent := base;
    if extraFlags.Some? {
      intent := AddFlags(intent, extraFlags.value);
    }
    intent := intent.(categories := []);
    intent := intent.(action := Some(if |f.actions| > 0 then f.actions[0] else ACTION_MAIN));
    intent := intent.(data := if |f.schemes| > 0 then Some(PlaceholderUri(f.schemes[0])) else None, mimeType := None);
    ghost var prepared := intent;
    assert prepared == PreparedIntent(base, f, extraFlags);
    var cats := f.categories;
    for i := 0 to |cats|
      invariant intent == AddCategories(prepared, cats[..i])
    {
      assert cats[..i + 1][..i] == cats[..i];
      intent := AddCategory(intent, cats[i]);
    }
    assert cats[..|cats|] == cats;
  }

  /** Whether `performLaunch` succeeds on the intent derived from filter `i`. */
  predicate Succeeds(args: LaunchArgs, extraFlags: Option<bv32>, perform: Intent -> Outcome, i: nat)
    requires i < |args.filters|
  {
    perform(DerivedIntent(args.intent, args.filters[i], extraFlags)).Pass?
  }

  /** The first filters have been tried, each with its derived intent, and each failed with the
      recorded error. */
  ghost predicate Tried(args: LaunchArgs, extraFlags: Option<bv32>, perform: Intent -> Outcome,
                        attempts: seq<Intent>, errors: seq<Throwable>)
  {
    && |attempts| == |errors| <= |args.filters|
    && forall k :: 0 <= k < |attempts| ==>
      && attempts[k] == DerivedIntent(args.intent, args.filters[k], extraFlags)
      && perform(attempts[k]).Fail?
      && errors[k] == perform(attempts[k]).cause
  }

  lemma TriedSnoc(args: LaunchArgs, extraFlags: Option<bv32>, perform: Intent -> Outcome,
                  attempts: seq<Intent>, errors: seq<Throwable>, intent: Intent)
    requires Tried(args, extraFlags, perform, attempts, errors)
    requires |attempts| < |args.filters|
    requires intent == DerivedIntent(args.intent, args.filters[|attempts|], extraFlags)
    requires perform(intent).Fail?
    ensures Tried(args, extraFlags, perform, attempts + [intent], errors + [perform(intent).cause])
  {
  }

  /** `IterativeLaunchStrategy.tryLaunch`. `perform` is `performLaunch`; `attempts` lists the intents
      it was called with, in order. The filters are tried in order up to the first success, which
      returns no errors; when none succeeds there is one error per filter, in filter order. */
  method TryLaunch(args: LaunchArgs, extraFlags: Option<bv32>, perform: Intent -> Outcome)
    returns (errors: seq<Throwable>, attempts: seq<Intent>)
    ensures |attempts| <= |args.filters|
    ensures forall i :: 0 <= i < |attempts| ==>
      attempts[i] == DerivedIntent(args.intent, args.filters[i], extraFlags)
    ensures forall i :: 0 <= i < |attempts| - 1 ==> perform(attempts[i]).Fail?
    ensures (exists i :: 0 <= i < |args.filters| && Succeeds(args, extraFlags, perform, i)) ==>
      errors == [] && |attempts| > 0 && perform(attempts[|attempts| - 1]).Pass?
    ensures (forall i :: 0 <= i < |args.filters| ==> !Succeeds(args, extraFlags, perform, i)) ==>
      && |attempts| == |args.filters|
      && |errors| == |args.filters|
      && forall i :: 0 <= i < |errors| ==> perform(attempts[i]).Fail? && errors[i] == perform(attempts[i]).cause
  {
    errors, attempts := [], [];
    var filters := args.filters;
    for i := 0 to |filters|
      invariant |attempts| == i
      invariant Tried(args, extraFlags, perform, attempts, errors)
    {
      var intent := DeriveIntent(args.intent, filters[i], extraFlags);
      var outcome := perform(intent);
      if outcome.Pass? {
        assert Succeeds(args, extraFlags, perform, i);
        return [], attempts + [intent];
      }
      TriedSnoc(args, extraFlags, perform, attempts, errors, intent);
      attempts, errors := attempts + [intent], errors + [outcome.cause];
    }
  }
}
