# Ninjabrain Bot: the standard-deviation profile table

Ninjabrain Bot fuses eye-throw bearings into a probability map of where
the stronghold is. Each throw's angular uncertainty comes from a small
table of named standard deviations, `StandardStdProfile`. This project
models that table and the one piece of `IThrow` it uses.

- The table has three entries: `NORMAL` (0), `ALTERNATIVE` (1) and
  `MANUAL` (2). They start from the user preferences `sigma`, `sigmaAlt`
  and `sigmaManual`.
- Each preference has a subscription. When the preference changes, the
  subscription writes the new value into the preference's own slot with
  `setStd`.
- `setStd` does nothing when the slot already holds the value. Otherwise
  it overwrites the slot and notifies the table's own subscribers once.
- `dispose` cancels the three subscriptions.
- `getInitialProfileNumber` picks `MANUAL` for a Minecraft 1.12 throw
  and `NORMAL` for every other throw.

Files:

- `throws.dfy`, module `Throws`: a throw as a value carrying only its
  version flag. A throw either keeps the interface's default flag
  (`Inherited`, which means "not 1.12") or overrides it.
- `std_profile.dfy`, module `StdProfiles`: the constants and the table as
  a pure specification. `Lookup` reads a slot. `WithStd` is one `setStd`.
  `Replay` is a run of preference changes delivered through the
  subscriptions. The module also holds the lemmas about these functions
  and the class `StandardStdProfile`. The class keeps the table in an
  `array<real>` that its methods update in place. Its methods are proved
  against `WithStd` and `Replay`.

Some choices in the model:

- Notification is a counter, `notifications`, of calls to
  `notifySubscribers`.
- A subscription is one `bool` per slot in the array `subs`.
- A preference change reaching its subscriber is the method
  `OnPreferenceModified`.
- Reading a slot outside the table raises an array-bounds exception in
  the code. The model returns `Err(IndexOutOfBounds(i))` instead.
- The object carries two ghost fields: the table it was built with and
  every change its subscriptions have delivered. Its invariant `Valid()`
  says the array and the notification count are exactly `Replay` of that
  history, so the lemmas about `Replay` hold of the object after any
  number of callbacks.

## Model

| member | source | states |
|---|---|---|
| Throws.IsMcVersion1_12 | src/main/java/ninjabrainbot/data/endereye/IThrow.java:26-28 | a throw is a 1.12 throw exactly when it overrides the flag with `true`; a throw that keeps the default is not |
| StdProfiles.SlotOf | src/main/java/ninjabrainbot/data/endereye/StandardStdProfile.java:19-20 | `sigma` feeds `NORMAL`, `sigmaAlt` feeds `ALTERNATIVE`, `sigmaManual` feeds `MANUAL`, each an index inside the table |
| StdProfiles.KeyAt | src/main/java/ninjabrainbot/data/endereye/StandardStdProfile.java:19-20 | every slot is fed by a preference: `KeyAt` is a right inverse of `SlotOf` |
| StdProfiles.RoutingIsBijective | src/main/java/ninjabrainbot/data/endereye/StandardStdProfile.java:19-20 | no two preferences share a slot, and `KeyAt` undoes `SlotOf` |
| StdProfiles.InitialTable | src/main/java/ninjabrainbot/data/endereye/StandardStdProfile.java:18 | the initial table has exactly three entries, and each preference's value sits in that preference's slot |
| StdProfiles.Lookup | src/main/java/ninjabrainbot/data/endereye/StandardStdProfile.java:24-26 | reading index `i` succeeds exactly when `0 <= i < |table|`, gives entry `i`, and otherwise fails with an out-of-bounds error naming `i` |
| StdProfiles.WithStd | src/main/java/ninjabrainbot/data/endereye/StandardStdProfile.java:33-38 | after `setStd(id, v)` slot `id` holds `v`, every other slot is unchanged, the length is unchanged, and a notification is sent exactly when the old value differed from `v` |
| StdProfiles.LookupAfterWithStd | src/main/java/ninjabrainbot/data/endereye/StandardStdProfile.java:36-37 | after `setStd(id, v)`, reading `id` gives `v`, and reading any other index gives what it gave before, error included |
| StdProfiles.WithStdSameValueIsSilent | src/main/java/ninjabrainbot/data/endereye/StandardStdProfile.java:34-35 | setting a slot to the value it holds leaves the table unchanged and notifies no one |
| StdProfiles.WithStdIdempotent | src/main/java/ninjabrainbot/data/endereye/StandardStdProfile.java:33-38 | a second identical `setStd` changes nothing and notifies no one, so two applications give one application's table and one notification at most |
| StdProfiles.Replay | src/main/java/ninjabrainbot/data/endereye/StandardStdProfile.java:19-20 | a run of preference changes keeps the table at three entries and sends at most one notification per change |
| StdProfiles.ReplayRoutesEachPreference | src/main/java/ninjabrainbot/data/endereye/StandardStdProfile.java:19-20 | after any run of changes, the slot of each preference holds the latest value that preference was changed to, or its old value; no change lands in another preference's slot |
| StdProfiles.LatestValueUnmentioned | src/main/java/ninjabrainbot/data/endereye/StandardStdProfile.java:19-20 | a preference the run never changes keeps its slot's value |
| StdProfiles.LatestValueMentioned | src/main/java/ninjabrainbot/data/endereye/StandardStdProfile.java:19-20 | for a preference the run changes, the final value does not depend on what the slot held before |
| StdProfiles.ReplayTwiceSameTable | src/main/java/ninjabrainbot/data/endereye/StandardStdProfile.java:33-38 | delivering the same run of changes a second time leaves the table as the first delivery left it |
| StdProfiles.ReplayOfCurrentValuesIsSilent | src/main/java/ninjabrainbot/data/endereye/StandardStdProfile.java:34-35 | a run whose every change repeats the value already in its slot leaves the table unchanged and sends no notification |
| StdProfiles.ReplaySnoc | src/main/java/ninjabrainbot/data/endereye/StandardStdProfile.java:19-20 | delivering one more change after a run gives the table of the longer run, and the notification counts add up |
| StdProfiles.ProfileHoldsLatestValues | src/main/java/ninjabrainbot/data/endereye/StandardStdProfile.java:19-20 | in a valid profile object, after any number of delivered changes, `getStd` of each preference's slot gives the latest value that preference was changed to, or the value the table was built with |
| StdProfiles.DefaultThrowStartsNormal | src/main/java/ninjabrainbot/data/endereye/StandardStdProfile.java:48-50 | a throw that keeps the default version flag starts on `NORMAL`, which holds `sigma` in a fresh table; the profile any throw starts on can be read |
| StdProfiles.StandardStdProfile.constructor | src/main/java/ninjabrainbot/data/endereye/StandardStdProfile.java:17-21 | the new table is `sigma`, `sigmaAlt`, `sigmaManual` at 0, 1, 2; all three subscriptions are active; nothing has been delivered or notified |
| StdProfiles.StandardStdProfile.GetStd | src/main/java/ninjabrainbot/data/endereye/StandardStdProfile.java:24-26 | reading a profile number succeeds exactly for 0, 1 and 2 and gives that entry of the table |
| StdProfiles.StandardStdProfile.GetNumberOfProfiles | src/main/java/ninjabrainbot/data/endereye/StandardStdProfile.java:29-31 | the table always has 3 profiles |
| StdProfiles.StandardStdProfile.SetStd | src/main/java/ninjabrainbot/data/endereye/StandardStdProfile.java:33-38 | the array afterwards is `WithStd` of the old one, in place, and the notification count goes up by one exactly when `WithStd` notifies |
| StdProfiles.StandardStdProfile.OnPreferenceModified | src/main/java/ninjabrainbot/data/endereye/StandardStdProfile.java:19-20 | a change to a preference whose subscription is active is written to that preference's slot, as `Replay` of the single change, and appended to the delivered history so the object stays `Replay` of the whole run; a cancelled subscription delivers nothing |
| StdProfiles.StandardStdProfile.Dispose | src/main/java/ninjabrainbot/data/endereye/StandardStdProfile.java:41-45 | all three subscriptions are cancelled; the table and the notification count are untouched |
| StdProfiles.StandardStdProfile.GetInitialProfileNumber | src/main/java/ninjabrainbot/data/endereye/StandardStdProfile.java:48-50 | the result is `MANUAL` exactly for a 1.12 throw and `NORMAL` exactly otherwise; it is never `ALTERNATIVE` |

## Left out

- The `Modifiable` base class and its subscriber list: the model counts
  calls to `notifySubscribers` and does not model who receives them.
- `Subscription` objects and the preference store: a subscription is one
  flag per slot. Reading a preference is a field of the `Preferences`
  value. A preference change is an explicit call of
  `OnPreferenceModified`.
- StdProfiles.StandardStdProfile.SetStd: private in the code, so only the
  subscription callbacks reach it and the table cannot change after
  `dispose`. Dafny has no private members here, so a client can call it
  directly. Such a call keeps the table's size but leaves the history
  behind `Valid()` unrecorded, so the object then no longer satisfies
  `Valid()`.
- `double` semantics: entries are `real`. The `==` test of `setStd` on
  NaN or on positive and negative zero is not modelled.
- The rest of `IThrow` (angle, correction, nether flag, profile
  selection on the throw itself): the table reads only the version flag.
- The probability engine: the priors, rings, chunks and calculator are
  not part of this model. They are separate from the profile table, and
  their tests are floating-point tolerance checks.
- The user interface panels, the button, the tabbed pane and the
  clipboard reader are not part of this model. They are Swing code, or
  polling and I/O code.
