/** The standard-deviation profile table: three named uncertainty values,
    each fed by one user preference, updated in place when the preference
    changes, and read by throws through a profile number. */
module StdProfiles {

  import opened Throws

  const NORMAL: int := 0
  const ALTERNATIVE: int := 1
  const MANUAL: int := 2

  /** The length of the table; nothing ever resizes it. */
  const NUMBER_OF_PROFILES: int := 3

  /** The three preferences that feed the table. */
  datatype PreferenceKey = Sigma | SigmaAlt | SigmaManual

  /** The values of those preferences when the table is built. */
  datatype Preferences = Preferences(sigma: real, sigmaAlt: real, sigmaManual: real)

  /** A change of one preference, as delivered to its subscriber. */
  datatype PreferenceEvent = Modified(key: PreferenceKey, newStd: real)

  datatype ProfileError = IndexOutOfBounds(index: int)

  datatype Result<T> = Ok(value: T) | Err(error: ProfileError)

  /** The outcome of one `setStd`: the new table, and whether the
      profile's subscribers were notified. */
  datatype Update = Update(table: seq<real>, notified: bool)

  /** The outcome of a run of preference changes: the final table and the
      number of notifications sent along the way. */
  datatype Run = Run(table: seq<real>, notifications: nat)

  function PreferenceValue(p: Preferences, k: PreferenceKey): real
  {
    match k
    case Sigma => p.sigma
    case SigmaAlt => p.sigmaAlt
    case SigmaManual => p.sigmaManual
  }

  /** The table slot each preference's subscription writes to. */
  function SlotOf(k: PreferenceKey): (id: int)
    ensures 0 <= id < NUMBER_OF_PROFILES
    ensures k == Sigma <==> id == NORMAL
    ensures k == SigmaAlt <==> id == ALTERNATIVE
    ensures k == SigmaManual <==> id == MANUAL
  {
    match k
    case Sigma => NORMAL
    case SigmaAlt => ALTERNATIVE
    case SigmaManual => MANUAL
  }

  /** The preference that feeds a slot: the inverse of SlotOf. */
  function KeyAt(id: int): (k: PreferenceKey)
    requires 0 <= id < NUMBER_OF_PROFILES
    ensures SlotOf(k) == id
  {
    if id == NORMAL then Sigma else if id == ALTERNATIVE then SigmaAlt else SigmaManual
  }

  /** Every slot is fed by exactly one preference, and every preference
      feeds exactly one slot. */
  lemma RoutingIsBijective()
    ensures forall k: PreferenceKey :: KeyAt(SlotOf(k)) == k
    ensures forall k1: PreferenceKey, k2: PreferenceKey :: SlotOf(k1) == SlotOf(k2) ==> k1 == k2
  {
  }

  /** The table as the constructor builds it. */
  function InitialTable(p: Preferences): (t: seq<real>)
    ensures |t| == NUMBER_OF_PROFILES
    ensures forall k: PreferenceKey :: t[SlotOf(k)] == PreferenceValue(p, k)
  {
    [p.sigma, p.sigmaAlt, p.sigmaManual]
  }

  /** Reading entry `i` of the table; outside the table it is an error. */
  function Lookup(t: seq<real>, i: int): (r: Result<real>)
    ensures r.Ok? <==> 0 <= i < |t|
    ensures r.Ok? ==> r.value == t[i]
    ensures r.Err? ==> r.error == IndexOutOfBounds(i)
  {
    if 0 <= i < |t| then Ok(t[i]) else Err(IndexOutOfBounds(i))
  }

  /** `setStd(id, std)` on a table: nothing happens when the entry already
      holds `std`; otherwise the entry is replaced and subscribers are
      notified. */
  function WithStd(t: seq<real>, id: int, std: real): (u: Update)
    requires 0 <= id < |t|
    ensures |u.table| == |t|
    ensures u.notified <==> t[id] != std
    ensures u.table[id] == std
    ensures forall j :: 0 <= j < |t| && j != id ==> u.table[j] == t[j]
  {
    if t[id] == std then Update(t, false) else Update(t[id := std], true)
  }

  /** After `setStd(id, std)`, reading `id` gives `std` and reading any
      other index gives what it gave before, including its error. */
  lemma LookupAfterWithStd(t: seq<real>, id: int, std: real, i: int)
    requires 0 <= id < |t|
    ensures Lookup(WithStd(t, id, std).table, i) == if i == id then Ok(std) else Lookup(t, i)
  {
  }

  /** Setting an entry to the value it holds changes nothing and notifies
      no one. */
  lemma WithStdSameValueIsSilent(t: seq<real>, id: int)
    requires 0 <= id < |t|
    ensures WithStd(t, id, t[id]) == Update(t, false)
  {
  }

  /** Applying the same `setStd` twice gives the table of applying it once,
      and the second application notifies no one. */
  lemma WithStdIdempotent(t: seq<real>, id: int, std: real)
    requires 0 <= id < |t|
    ensures var once := WithStd(t, id, std);
            WithStd(once.table, id, std) == Update(once.table, false)
  {
  }

  /** A run of preference changes, each delivered by its subscription to
      `setStd` on the preference's own slot. */
  function Replay(t: seq<real>, events: seq<PreferenceEvent>): (r: Run)
    requires |t| == NUMBER_OF_PROFILES
    ensures |r.table| == NUMBER_OF_PROFILES
    ensures r.notifications <= |events|
    decreases |events|
  {
    if events == [] then Run(t, 0)
    else
      var u := WithStd(t, SlotOf(events[0].key), events[0].newStd);
      var rest := Replay(u.table, events[1..]);
      Run(rest.table, rest.notifications + if u.notified then 1 else 0)
  }

  /** The value the latest change of preference `k` in `events` carries, or
      `current` when `events` does not change `k`. */
  function LatestValue(events: seq<PreferenceEvent>, k: PreferenceKey, current: real): real
    decreases |events|
  {
    if events == [] then current
    else LatestValue(events[1..], k, if events[0].key == k then events[0].newStd else current)
  }

  predicate Mentions(events: seq<PreferenceEvent>, k: PreferenceKey)
  {
    exists i :: 0 <= i < |events| && events[i].key == k
  }

  /** Each preference change lands in its own slot and never in another:
      after any run of changes, the slot of preference `k` holds the latest
      value `k` was changed to, or its old value if `k` was not changed. */
  lemma {:induction false} ReplayRoutesEachPreference(t: seq<real>, events: seq<PreferenceEvent>, k: PreferenceKey)
    requires |t| == NUMBER_OF_PROFILES
    ensures Replay(t, events).table[SlotOf(k)] == LatestValue(events, k, t[SlotOf(k)])
    decreases |events|
  {
    if events != [] {
      var u := WithStd(t, SlotOf(events[0].key), events[0].newStd);
      RoutingIsBijective();
      assert u.table[SlotOf(k)] == if events[0].key == k then events[0].newStd else t[SlotOf(k)];
      ReplayRoutesEachPreference(u.table, events[1..], k);
    }
  }

  /** A preference the run never changes keeps its value. */
  lemma {:induction false} LatestValueUnmentioned(events: seq<PreferenceEvent>, k: PreferenceKey, current: real)
    requires !Mentions(events, k)
    ensures LatestValue(events, k, current) == current
    decreases |events|
  {
    if events != [] {
      assert events[0].key != k;
      assert !Mentions(events[1..], k) by {
        forall i | 0 <= i < |events[1..]| ensures events[1..][i].key != k {
          assert events[1..][i] == events[i + 1];
        }
      }
      LatestValueUnmentioned(events[1..], k, current);
    }
  }

  /** For a preference the run changes, where the slot started does not
      matter. */
  lemma {:induction false} LatestValueMentioned(events: seq<PreferenceEvent>, k: PreferenceKey, c1: real, c2: real)
    requires Mentions(events, k)
    ensures LatestValue(events, k, c1) == LatestValue(events, k, c2)
    decreases |events|
  {
    var i :| 0 <= i < |events| && events[i].key == k;
    if events[0].key == k {
      // both starting values are replaced by the same first change
    } else {
      assert i > 0;
      assert events[1..][i - 1].key == k;
      LatestValueMentioned(events[1..], k, c1, c2);
    }
  }

  /** Replaying a run of changes a second time leaves the table as the
      first replay left it. */
  lemma ReplayTwiceSameTable(t: seq<real>, events: seq<PreferenceEvent>)
    requires |t| == NUMBER_OF_PROFILES
    ensures Replay(Replay(t, events).table, events).table == Replay(t, events).table
  {
    var once := Replay(t, events).table;
    var twice := Replay(once, events).table;
    forall id | 0 <= id < NUMBER_OF_PROFILES ensures twice[id] == once[id] {
      var k := KeyAt(id);
      ReplayRoutesEachPreference(t, events, k);
      ReplayRoutesEachPreference(once, events, k);
      if Mentions(events, k) {
        LatestValueMentioned(events, k, once[id], t[id]);
      } else {
        LatestValueUnmentioned(events, k, once[id]);
        LatestValueUnmentioned(events, k, t[id]);
      }
    }
  }

  /** Changes that only repeat the values the table already holds leave it
      as it is and notify no one. */
  lemma {:induction false} ReplayOfCurrentValuesIsSilent(t: seq<real>, events: seq<PreferenceEvent>)
    requires |t| == NUMBER_OF_PROFILES
    requires forall i :: 0 <= i < |events| ==> events[i].newStd == t[SlotOf(events[i].key)]
    ensures Replay(t, events) == Run(t, 0)
    decreases |events|
  {
    if events != [] {
      WithStdSameValueIsSilent(t, SlotOf(events[0].key));
      assert forall i :: 0 <= i < |events[1..]| ==> events[1..][i] == events[i + 1];
      ReplayOfCurrentValuesIsSilent(t, events[1..]);
    }
  }

  /** Delivering one more change after a run is the same as delivering
      the longer run: the tables agree and the notification counts add up. */
  lemma {:induction false} ReplaySnoc(t: seq<real>, events: seq<PreferenceEvent>, e: PreferenceEvent)
    requires |t| == NUMBER_OF_PROFILES
    ensures Replay(t, events + [e]).table == Replay(Replay(t, events).table, [e]).table
    ensures Replay(t, events + [e]).notifications ==
            Replay(t, events).notifications + Replay(Replay(t, events).table, [e]).notifications
    decreases |events|
  {
    if events == [] {
      assert events + [e] == [e];
    } else {
      assert (events + [e])[1..] == events[1..] + [e];
      ReplaySnoc(WithStd(t, SlotOf(events[0].key), events[0].newStd).table, events[1..], e);
    }
  }

  /** However many changes the subscriptions have delivered, each slot of a
      profile table holds the latest value its own preference was changed
      to, or the value it was built with. */
  lemma ProfileHoldsLatestValues(profile: StandardStdProfile, k: PreferenceKey)
    requires profile.Valid()
    ensures profile.GetStd(SlotOf(k)) ==
            Ok(LatestValue(profile.delivered, k, profile.initial[SlotOf(k)]))
  {
    ReplayRoutesEachPreference(profile.initial, profile.delivered, k);
  }

  /** A throw that keeps the default version flag starts on the normal
      profile, and whatever profile a throw starts on can be read from the
      table. */
  lemma DefaultThrowStartsNormal(profile: StandardStdProfile, p: Preferences)
    ensures profile.GetInitialProfileNumber(Throw(Inherited)) == NORMAL
    ensures Lookup(InitialTable(p), profile.GetInitialProfileNumber(Throw(Inherited))) == Ok(p.sigma)
    ensures forall t: Throw :: Lookup(InitialTable(p), profile.GetInitialProfileNumber(t)).Ok?
  {
  }

  /** The profile table itself: an array of three values updated in place,
      a subscription per preference, and a count of the notifications sent
      to the table's own subscribers. */
  class StandardStdProfile {
    var stds: array<real>
    /** `subs[i]` holds while the subscription of preference `KeyAt(i)` is
        active. */
    var subs: array<bool>
    var notifications: nat

    /** The table the constructor built, and every change the subscriptions
        have delivered since, in order. */
    ghost var initial: seq<real>
    ghost var delivered: seq<PreferenceEvent>

    /** The table keeps its three slots and its three subscriptions. */
    ghost predicate Sized()
      reads this
    {
      stds.Length == NUMBER_OF_PROFILES && subs.Length == NUMBER_OF_PROFILES
    }

    /** The table and the notification count are exactly what replaying the
        delivered changes on the initial table gives. */
    ghost predicate Valid()
      reads this, stds
    {
      Sized() && |initial| == NUMBER_OF_PROFILES &&
      Table() == Replay(initial, delivered).table &&
      notifications == Replay(initial, delivered).notifications
    }

    ghost function Table(): seq<real>
      reads this, stds
    {
      stds[..]
    }

    constructor (preferences: Preferences)
      ensures Valid() && fresh(stds) && fresh(subs)
      ensures Table() == InitialTable(preferences) && initial == InitialTable(preferences)
      ensures delivered == []
      ensures forall i :: 0 <= i < subs.Length ==> subs[i]
      ensures notifications == 0
    {
      stds := new real[3] [preferences.sigma, preferences.sigmaAlt, preferences.sigmaManual];
      subs := new bool[3] [true, true, true];
      notifications := 0;
      initial := InitialTable(preferences);
      delivered := [];
    }

    function GetStd(profileNumber: int): (r: Result<real>)
      reads this, stds
      requires Sized()
      ensures r.Ok? <==> 0 <= profileNumber < NUMBER_OF_PROFILES
      ensures r == Lookup(Table(), profileNumber)
    {
      if 0 <= profileNumber < stds.Length then Ok(stds[profileNumber])
      else Err(IndexOutOfBounds(profileNumber))
    }

    function GetNumberOfProfiles(): (n: int)
      reads this
      requires Sized()
      ensures n == NUMBER_OF_PROFILES
    {
      stds.Length
    }

    /** Only the subscription callbacks call this; a direct call leaves the
        history behind `Valid()` unrecorded. */
    method SetStd(id: int, std: real)
      requires Sized() && 0 <= id < NUMBER_OF_PROFILES
      modifies stds, this`notifications
      ensures Sized()
      ensures Table() == WithStd(old(Table()), id, std).table
      ensures notifications == old(notifications) + if WithStd(old(Table()), id, std).notified then 1 else 0
    {
      if stds[id] == std {
        return;
      }
      stds[id] := std;
      notifications := notifications + 1;
    }

    /** The callback a preference's subscription runs when the preference
        changes; once the subscription is cancelled the change is not
        delivered. */
    method OnPreferenceModified(e: PreferenceEvent)
      requires Valid()
      modifies stds, this`notifications, this`delivered
      ensures Valid()
      ensures old(subs[SlotOf(e.key)]) ==>
        delivered == old(delivered) + [e] &&
        Table() == Replay(old(Table()), [e]).table &&
        notifications == old(notifications) + Replay(old(Table()), [e]).notifications
      ensures !old(subs[SlotOf(e.key)]) ==>
        delivered == old(delivered) &&
        Table() == old(Table()) && notifications == old(notifications)
    {
      if subs[SlotOf(e.key)] {
        ReplaySnoc(initial, delivered, e);
        SetStd(SlotOf(e.key), e.newStd);
        delivered := delivered + [e];
      }
    }

    method Dispose()
      requires Valid()
      modifies subs
      ensures Valid()
      ensures forall i :: 0 <= i < subs.Length ==> !subs[i]
      ensures Table() == old(Table()) && notifications == old(notifications)
    {
      for i := 0 to subs.Length
        invariant forall j :: 0 <= j < i ==> !subs[j]
      {
        subs[i] := false;
      }
    }

    /** The profile a new throw starts with: manual for a 1.12 throw,
        normal for every other, never the alternative one. */
    function GetInitialProfileNumber(t: Throw): (r: int)
      ensures 0 <= r < NUMBER_OF_PROFILES
      ensures r == MANUAL <==> IsMcVersion1_12(t)
      ensures r == NORMAL <==> !IsMcVersion1_12(t)
      ensures r != ALTERNATIVE
    {
      if IsMcVersion1_12(t) then MANUAL else NORMAL
    }
  }
}
