# Launch strategies of Root Activity Launcher, in Dafny

Root Activity Launcher starts activities, services and broadcast receivers of other apps.
It can do this through several *launch strategies*:

- a root strategy that runs an `am` command in a root shell;
- binder strategies that call the activity manager through Shizuku or Dhizuku;
- an iterative fallback that builds one intent per declared intent filter and tries each in turn.

This project models the logic of these strategies: how the commands are built, how the SDK
level selects the call shape, how results are classified, and how the fallback loop picks
its answer. It proves what that logic promises.

Modules, one file each:

- `Outcomes` (`outcomes.dfy`): throwables, which come in the `Exception` and `Error` families.
  Also the result of an external call, and what `tryLaunch` produces: a returned list of
  failures, or a throwable that escapes.
- `Text` (`text.dfy`): Kotlin's decimal rendering of an `Int` with its parser,
  `joinToString("\n")` with a line splitter, and reading a string up to a delimiter.
- `Intents` (`intents.dfy`): the intent, intent filter, extra and request values. An intent's
  categories are a sequence; adding a category never repeats one that is already there.
- `CommandLaunch` (`command.dfy`): `makeEscapedCommand` and `addToCommand`. `AddToCommand`
  is a loop method proved against the `CommandSuffix` layout function. A parser proves the
  layout can be read back.
- `RootLaunch` (`root.dfy`): the root strategy's `tryLaunch`.
- `Sdk` (`sdk.dfy`): the API-level bands that select the service, activity and broadcast
  call shapes.
- `BinderLaunch` (`binder.dfy`): the binder wrapper's `tryLaunch`, the Shizuku and Dhizuku
  `canRun` and `getUidAndPackage`, the three `callLaunch` variants and their result checks.
- `IterativeLaunch` (`iterative.dfy`): the fallback strategy's `canRun` and `tryLaunch`.
  `TryLaunch` is a loop method proved against the `DerivedIntent` function.

External calls are parameters of the model:

- the root shell is a function from command text to exit code and stderr lines;
- the platform (activity manager, package manager, Shizuku uid, the three start calls) is a
  record of functions;
- `performLaunch` is a function from intent to outcome;
- privilege probes are booleans.

`tryLaunch` reports failures as a list, but not every implementation catches everything:

- `BinderWrapperLaunchStrategy.tryLaunch`
  catches only `Exception`, so an `Error` thrown by `callLaunch` escapes it.
  `RootLaunchStrategy.tryLaunch` has no `try` at all, so anything the shell call throws
  escapes. `LaunchResult` therefore has a `Raised` case.
  `BinderLaunch.TryLaunchReturnsUnlessError` proves that a binder strategy always returns
  when the platform throws only exceptions.
- The iterative strategy catches `Throwable`, so every failure of a filter is recorded.

## Model

| member | source | states |
|---|---|---|
| CommandLaunch.Escape | app/src/main/java/tk/zwander/rootactivitylauncher/util/launch/LaunchStrategy.kt:32-36 | the escaped command is longer than the input by exactly the number of `$` in it |
| CommandLaunch.EscapeChar | app/src/main/java/tk/zwander/rootactivitylauncher/util/launch/LaunchStrategy.kt:35 | a `$` becomes `\$` and any other character is kept as it is |
| CommandLaunch.EscapeAppend | app/src/main/java/tk/zwander/rootactivitylauncher/util/launch/LaunchStrategy.kt:35 | escaping works character by character: escaping a concatenation concatenates the escaped parts |
| CommandLaunch.EscapeWithoutDollar | app/src/main/java/tk/zwander/rootactivitylauncher/util/launch/LaunchStrategy.kt:32-36 | a command without `$` comes back unchanged |
| CommandLaunch.EscapedDollarsArePrefixed | app/src/main/java/tk/zwander/rootactivitylauncher/util/launch/LaunchStrategy.kt:35 | every `$` of an escaped command directly follows a backslash |
| CommandLaunch.EscapeRoundTrip | app/src/main/java/tk/zwander/rootactivitylauncher/util/launch/LaunchStrategy.kt:32-36 | escaping loses nothing: reading `\$` back as `$` recovers the original command |
| CommandLaunch.AddToCommand | app/src/main/java/tk/zwander/rootactivitylauncher/util/launch/LaunchStrategy.kt:293-307 | the built command is the given command followed by ` -a <action>`, then one extra segment per extra and one category segment per category, each in list order |
| CommandLaunch.AppendExtras | app/src/main/java/tk/zwander/rootactivitylauncher/util/launch/LaunchStrategy.kt:296-300 | the loop appends ` --<flag> "<key>" "<value>"` for each extra, in order |
| CommandLaunch.AppendCategories | app/src/main/java/tk/zwander/rootactivitylauncher/util/launch/LaunchStrategy.kt:302-306 | the loop appends ` -c "<category>"` for each category, in order |
| CommandLaunch.SuffixStartsWithAction | app/src/main/java/tk/zwander/rootactivitylauncher/util/launch/LaunchStrategy.kt:294 | the suffix opens with ` -a ` and the action, and a null action is rendered as the text `null` |
| CommandLaunch.RootCommandLayout | app/src/main/java/tk/zwander/rootactivitylauncher/util/launch/LaunchStrategy.kt:243-246 | only the base command is escaped: the root command is the escaped base followed by the suffix exactly as built, and a base without `$` appears unchanged |
| CommandLaunch.ExtraSegmentsSnoc | app/src/main/java/tk/zwander/rootactivitylauncher/util/launch/LaunchStrategy.kt:297-299 | one more extra adds exactly its own segment at the end |
| CommandLaunch.CategorySegmentsSnoc | app/src/main/java/tk/zwander/rootactivitylauncher/util/launch/LaunchStrategy.kt:303-305 | one more category adds exactly its own segment at the end |
| CommandLaunch.SuffixRoundTrip | app/src/main/java/tk/zwander/rootactivitylauncher/util/launch/LaunchStrategy.kt:293-307 | the layout is unambiguous: the action, every extra and every category can be read back from the suffix, in order, when flags and actions hold no space and keys, values and categories hold no quote |
| CommandLaunch.ExtrasRoundTrip | app/src/main/java/tk/zwander/rootactivitylauncher/util/launch/LaunchStrategy.kt:297-299 | the extra segments read back as the extras, leaving the text that follows them |
| CommandLaunch.CategoriesRoundTrip | app/src/main/java/tk/zwander/rootactivitylauncher/util/launch/LaunchStrategy.kt:303-305 | the category segments read back as the categories |
| CommandLaunch.ParseOneExtra | app/src/main/java/tk/zwander/rootactivitylauncher/util/launch/LaunchStrategy.kt:298 | one extra segment reads back as that extra and the rest of the text |
| CommandLaunch.ParseOneCategory | app/src/main/java/tk/zwander/rootactivitylauncher/util/launch/LaunchStrategy.kt:304 | one category segment reads back as that category and the rest of the text |
| RootLaunch.TryLaunch | app/src/main/java/tk/zwander/rootactivitylauncher/util/launch/LaunchStrategy.kt:242-251 | the command run is the escaped base command plus the suffix. A shell throw escapes. Otherwise the error list is empty if and only if the exit code is 0, and a non-zero exit gives exactly one exception whose message is the stderr lines joined by newlines |
| Text.JoinLines | app/src/main/java/tk/zwander/rootactivitylauncher/util/launch/LaunchStrategy.kt:250 | joining no lines gives the empty text; otherwise the first line starts the result, and its length is that of the lines plus one newline between each two |
| Text.JoinLinesRoundTrip | app/src/main/java/tk/zwander/rootactivitylauncher/util/launch/LaunchStrategy.kt:250 | the joined stderr lines can be cut apart again into the same lines, so the message holds every line in order |
| Text.Decimal | app/src/main/java/tk/zwander/rootactivitylauncher/util/launch/LaunchStrategy.kt:116 | a status is rendered with a minus sign exactly when it is negative, then a non-empty run of digits with no leading zero |
| Text.NatDigits | app/src/main/java/tk/zwander/rootactivitylauncher/util/launch/LaunchStrategy.kt:116 | the rendered magnitude of a status code is a non-empty digit string without a leading zero |
| Text.DecimalRoundTrip | app/src/main/java/tk/zwander/rootactivitylauncher/util/launch/LaunchStrategy.kt:116 | the decimal rendering of a status code reads back as that code |
| Text.TakeUntil | app/src/main/java/tk/zwander/rootactivitylauncher/util/launch/LaunchStrategy.kt:298 | the reader the layout proofs use to cut text at a quote or a space, not part of the launcher: a successful cut splits the text around the first delimiter, and a failed one means there is no delimiter |
| Text.TakeUntilSplits | app/src/main/java/tk/zwander/rootactivitylauncher/util/launch/LaunchStrategy.kt:298 | for the layout proofs, not part of the launcher: a delimiter after delimiter-free text is the first one the reader finds |
| Sdk.ServiceBandOf | app/src/main/java/tk/zwander/rootactivitylauncher/util/launch/LaunchStrategy.kt:128-166 | the chosen service band is the one whose API-level interval holds the SDK level |
| Sdk.ServiceBandUnique | app/src/main/java/tk/zwander/rootactivitylauncher/util/launch/LaunchStrategy.kt:128-166 | the four intervals are disjoint and cover every level: a level lies in a band if and only if that band is the chosen one |
| Sdk.ServiceBandMonotone | app/src/main/java/tk/zwander/rootactivitylauncher/util/launch/LaunchStrategy.kt:128-166 | a newer API level never selects an older call shape |
| Sdk.FeatureBandOf | app/src/main/java/tk/zwander/rootactivitylauncher/util/launch/LaunchStrategy.kt:100-195 | the `WithFeature` call is chosen if and only if the level is at least R |
| BinderLaunch.WrapperTryLaunch | app/src/main/java/tk/zwander/rootactivitylauncher/util/launch/LaunchStrategy.kt:44-52 | a normal return gives `[]` and only a normal return does. An `Exception` gives exactly `[e]`, an `Error` escapes, and the list never has more than one element |
| BinderLaunch.PrivilegeCanRun | app/src/main/java/tk/zwander/rootactivitylauncher/util/launch/LaunchStrategy.kt:56-76 | the strategy can run if and only if the service is reachable and permission is held or granted on request. The grant is checked only after a successful probe, and requested only when the probe succeeded and permission was not held |
| BinderLaunch.UserIdOf | app/src/main/java/tk/zwander/rootactivitylauncher/util/launch/LaunchStrategy.kt:65-89 | the user id is the uid divided by the per-user range, truncated toward zero |
| BinderLaunch.ShizukuIdentity | app/src/main/java/tk/zwander/rootactivitylauncher/util/launch/LaunchStrategy.kt:65-69 | the identity is the user of Shizuku's uid and the first package of that uid, or no package when it owns none; a failing uid lookup propagates |
| BinderLaunch.IdentityOf | app/src/main/java/tk/zwander/rootactivitylauncher/util/launch/LaunchStrategy.kt:65-89 | the identity of a source is obtained exactly when its uid lookup returns; a Dhizuku identity names the Dhizuku package and a Shizuku identity names a package of its uid |
| BinderLaunch.DhizukuIdentity | app/src/main/java/tk/zwander/rootactivitylauncher/util/launch/LaunchStrategy.kt:82-89 | the package is always `com.rosan.dhizuku` and the user is that of its application uid; the call fails exactly when the lookup throws, with the same cause |
| BinderLaunch.ActivityCallFor | app/src/main/java/tk/zwander/rootactivitylauncher/util/launch/LaunchStrategy.kt:100-113 | the `WithFeature` form is used exactly from R on, and both forms pass the identity's package and the intent |
| BinderLaunch.ServiceCallFor | app/src/main/java/tk/zwander/rootactivitylauncher/util/launch/LaunchStrategy.kt:128-166 | the call shape is that of the band of the SDK level. Every shape passes the intent and the user id, all but the oldest pass the package, and foreground is never requested |
| BinderLaunch.ReceiverCallFor | app/src/main/java/tk/zwander/rootactivitylauncher/util/launch/LaunchStrategy.kt:181-195 | the `WithFeature` form is used exactly from R on. The broadcast passes the intent and no app op, is neither ordered nor sticky, and goes to user 0 |
| BinderLaunch.CheckStatus | app/src/main/java/tk/zwander/rootactivitylauncher/util/launch/LaunchStrategy.kt:115-117 | a status passes if and only if it is START_SUCCESS (the same check closes the receiver launch at lines 197-199); otherwise the failure is an exception whose message is `Error starting <what>: <status>` |
| BinderLaunch.StatusMessage | app/src/main/java/tk/zwander/rootactivitylauncher/util/launch/LaunchStrategy.kt:116 | the failure message is `Error starting <what>: ` followed by text that reads back as the status code |
| BinderLaunch.StatusMessageDistinguishes | app/src/main/java/tk/zwander/rootactivitylauncher/util/launch/LaunchStrategy.kt:115-117 | different codes give different activity messages and different receiver messages, and an activity message is never a receiver message |
| BinderLaunch.CheckService | app/src/main/java/tk/zwander/rootactivitylauncher/util/launch/LaunchStrategy.kt:168-172 | a null component fails with `Unable to find service!`, package `!` fails with `Requires permission <className>`, `!!` or `?` fail with the class name, and any other package passes |
| BinderLaunch.ActivityCallLaunch | app/src/main/java/tk/zwander/rootactivitylauncher/util/launch/LaunchStrategy.kt:93-118 | the activity launch passes if and only if the binder and the identity are obtained and the start call of the API level returns START_SUCCESS. A throw by the binder, the identity lookup or the start call is passed on as it is, and a returned status is judged by `CheckStatus` as `Error starting Activity: <code>` |
| BinderLaunch.ServiceCallLaunch | app/src/main/java/tk/zwander/rootactivitylauncher/util/launch/LaunchStrategy.kt:122-173 | the service launch passes if and only if the binder and the identity are obtained and the start call returns a component whose package is not a sentinel. A throw by the binder, the identity lookup or the start call is passed on as it is, and a returned component is judged by `CheckService` |
| BinderLaunch.ReceiverCallLaunch | app/src/main/java/tk/zwander/rootactivitylauncher/util/launch/LaunchStrategy.kt:177-200 | the broadcast passes if and only if the binder is obtained and the broadcast of the API level returns START_SUCCESS. A throw by the binder or the broadcast is passed on as it is, and a returned status is judged by `CheckStatus` as `Error starting Receiver: <code>` |
| BinderLaunch.CallLaunch | app/src/main/java/tk/zwander/rootactivitylauncher/util/launch/LaunchStrategy.kt:93-200 | whatever the target, a failure to obtain the binder is passed on unchanged and nothing passes without the binder |
| BinderLaunch.ReceiverIgnoresIdentity | app/src/main/java/tk/zwander/rootactivitylauncher/util/launch/LaunchStrategy.kt:177-200 | a broadcast gives the same outcome whichever privilege source is used and whatever its identity lookups answer |
| BinderLaunch.CanRun | app/src/main/java/tk/zwander/rootactivitylauncher/util/launch/LaunchStrategy.kt:56-76 | a binder strategy can run if and only if the probe of its own privilege source allows it, and it requests permission only when that source is reachable and permission is not held |
| BinderLaunch.TryLaunch | app/src/main/java/tk/zwander/rootactivitylauncher/util/launch/LaunchStrategy.kt:44-52 | a binder strategy returns no errors if and only if its `callLaunch` passes. An `Exception` from `callLaunch` gives exactly that exception as the one error, and an `Error` escapes |
| BinderLaunch.TryLaunchReturnsUnlessError | app/src/main/java/tk/zwander/rootactivitylauncher/util/launch/LaunchStrategy.kt:44-200 | the failures `callLaunch` creates are exceptions, so a binder strategy returns a list whenever the platform throws only exceptions |
| Intents.AddCategory | app/src/main/java/tk/zwander/rootactivitylauncher/util/launch/LaunchStrategy.kt:279 | adding a category adds exactly that element to the set, keeps it free of repeats and changes nothing else |
| Intents.AddCategories | app/src/main/java/tk/zwander/rootactivitylauncher/util/launch/LaunchStrategy.kt:279 | adding a list of categories adds exactly its elements, keeps the set free of repeats and changes nothing else |
| Intents.AddDistinctCategories | app/src/main/java/tk/zwander/rootactivitylauncher/util/launch/LaunchStrategy.kt:276-279 | adding distinct categories to a cleared set leaves exactly those categories, in order |
| IterativeLaunch.CanRun | app/src/main/java/tk/zwander/rootactivitylauncher/util/launch/LaunchStrategy.kt:259-261 | false whenever there are no filters, false whenever the SDK level is below M, and true otherwise |
| IterativeLaunch.AddFlags | app/src/main/java/tk/zwander/rootactivitylauncher/util/launch/LaunchStrategy.kt:272-274 | every flag the intent had stays set, of the others exactly the added flags become set, and nothing but the flags changes |
| IterativeLaunch.DerivedIntent | app/src/main/java/tk/zwander/rootactivitylauncher/util/launch/LaunchStrategy.kt:270-279 | a derived intent has the filter's first action or ACTION_MAIN, the data `<first scheme>://yes` or none, no MIME type (setting the data clears it), and the request's component |
| IterativeLaunch.DerivedIntentCategories | app/src/main/java/tk/zwander/rootactivitylauncher/util/launch/LaunchStrategy.kt:276-279 | a derived intent holds exactly the filter's categories and none of the request's, never repeats one, and keeps the filter's order when the filter lists none twice |
| IterativeLaunch.DerivedIntentFlags | app/src/main/java/tk/zwander/rootactivitylauncher/util/launch/LaunchStrategy.kt:255-274 | a derived intent has the request's flags plus the extra flags; with no extra flags (the default) its flags are the request's |
| IterativeLaunch.DeriveIntent | app/src/main/java/tk/zwander/rootactivitylauncher/util/launch/LaunchStrategy.kt:270-279 | the in-place steps on the copied intent produce the derived intent for the filter |
| IterativeLaunch.TryLaunch | app/src/main/java/tk/zwander/rootactivitylauncher/util/launch/LaunchStrategy.kt:265-290 | the filters are tried in order, each with its derived intent. Everything tried before the last attempt failed. If any filter succeeds, the result is `[]` and the last attempt is the first success, so later filters are never tried. If none succeeds, every filter is tried and the errors are their failures in filter order; with no filters nothing is tried and `[]` is returned |

## Left out

- `ExtrasDialog.kt` is user interface with no logic of its own and is not part of this model.
- The binder IPC is represented only by the results of its calls, as fields of `Platform`.
  This covers `IActivityManager.Stub.asInterface`, `SystemServiceHelper.getSystemService`,
  `ShizukuBinderWrapper` and `Dhizuku.binderWrapper`, all folded into `activityManager`.
  It also covers the activity-manager calls.
- Reflection (`getMethod(...).invoke(...)`) is not modelled. Only the choice of signature is
  kept, and the reply is the component name, or null when the reply is not a `ComponentName`.
  A failing method lookup is a throw of the `startService` call.
- `RootLaunchStrategy.canRun` is `Shell.SU.available()`, a process probe; it is an input the model does not represent.
- `Shell.Pool.SU.run` is a parameter that returns the exit code and the stderr lines, or throws.
- The Shizuku and Dhizuku pings, permission checks and permission requests are booleans in
  `Probe`. `Dhizuku.init` is counted as the reachability probe.
- `getPackagesForUid` returning a null array is not modelled: the package list is a sequence, possibly empty.
- Logging, coroutine suspension and the commented-out Shizuku shell strategy are left out.
  They do not affect results.
- Intent categories are an `ArraySet`, whose iteration order is its hash order. The model
  keeps insertion order. `SuffixRoundTrip` and `AddToCommand` are therefore stated for the
  order of the model's sequence.
- `StringBuilder` is modelled by the string it holds. `AddToCommand` returns the new contents
  rather than mutating a shared builder.
- Of an intent, only the action, data, MIME type, categories, component and flags are modelled.
  The extras bundle, package, selector and the other fields are copied unchanged and are not represented.
- Exceptions thrown while an intent is derived (copying, `Uri.parse`) are not modelled.
  `DerivedIntent` is total, and only `performLaunch` can fail.
- `extraFlags()` is a parameter of `IterativeLaunch.TryLaunch`. `None` is the default
  implementation.
- `CommandLaunch.Unescape` inverts `Escape`, not the shell's quoting. A backslash already in
  front of a `$` in the base command is not made shell-safe by `makeEscapedCommand`, and the
  model does not claim it is.
- `makeCommand` belongs to each backend and is not part of this model; its result is the `base` parameter of `RootLaunch.TryLaunch`.
