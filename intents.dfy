/** The request a launch strategy receives: the target intent, the component's declared
    intent filters and the user's extras. */
module Intents {
  import opened Outcomes

  /** `Intent.ACTION_MAIN`. */
  const ACTION_MAIN: string := "android.intent.action.MAIN"

  datatype ComponentName = ComponentName(packageName: string, className: string)

  /** The parts of an `android.content.Intent` the strategies read or write. `categories` stands
      for the intent's category set, a null set and an empty one both being `[]`; adding a
      category (`AddCategory`) never repeats one, and the categories are listed in the order they
      were added. `data` is the URI text and `mimeType` the explicit MIME type; setting the data
      of an Android intent also clears its type. */
  datatype Intent = Intent(
    action: Option<string>,
    data: Option<string>,
    mimeType: Option<string>,
    categories: seq<string>,
    component: Option<ComponentName>,
    flags: bv32)

  /** A declared intent filter: its actions, data schemes and categories, in declaration order. */
  datatype IntentFilter = IntentFilter(actions: seq<string>, schemes: seq<string>, categories: seq<string>)

  /** A user-supplied extra. `shellFlag` is the `am` option name of the extra's type
      (`safeType.shellArgName`). */
  datatype Extra = Extra(key: string, shellFlag: string, value: string)

  datatype LaunchArgs = LaunchArgs(intent: Intent, filters: seq<IntentFilter>, extras: seq<Extra>)

  predicate Distinct(s: seq<string>) {
    forall i, j :: 0 <= i < j < |s| ==> s[i] != s[j]
  }

  /** The two intents agree on everything but their categories. */
  predicate SameExceptCategories(a: Intent, b: Intent)
  {
    && a.action == b.action && a.data == b.data && a.mimeType == b.mimeType
    && a.component == b.component && a.flags == b.flags
  }

  /** `Intent.addCategory`: inserts `c` into the category set unless it is already there. */
  function AddCategory(intent: Intent, c: string): (r: Intent)
    ensures forall x :: x in r.categories <==> x in intent.categories || x == c
    ensures Distinct(intent.categories) ==> Distinct(r.categories)
    ensures SameExceptCategories(r, intent)
  {
    if c in intent.categories then intent else intent.(categories := intent.categories + [c])
  }

  /** Adds each of `cats` in turn, first to last: how a filter's categories are copied onto an intent. */
  function AddCategories(intent: Intent, cats: seq<string>): (r: Intent)
    ensures forall x :: x in r.categories <==> x in intent.categories || x in cats
    ensures Distinct(intent.categories) ==> Distinct(r.categories)
    ensures SameExceptCategories(r, intent)
    decreases |cats|
  {
    if |cats| == 0 then intent
    else AddCategory(AddCategories(intent, cats[..|cats| - 1]), cats[|cats| - 1])
  }

  /** Adding distinct categories to an empty set keeps them all, in order. */
  lemma {:induction false} AddDistinctCategories(intent: Intent, cats: seq<string>)
    requires intent.categories == []
    ensures Distinct(cats) ==> AddCategories(intent, cats).categories == cats
    decreases |cats|
  {
    if |cats| > 0 && Distinct(cats) {
      var init := cats[..|cats| - 1];
      assert Distinct(init);
      AddDistinctCategories(intent, init);
      assert cats[|cats| - 1] !in init;
      assert init + [cats[|cats| - 1]] == cats;
    }
  }
}
