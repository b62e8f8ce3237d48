/**
 * The roster and loading logic of the app shell (App.tsx): toggling a
 * member's pin and re-sorting pinned members first, loading (and
 * migrating) the stored roster, the stored temperature unit, putting the
 * model's suggestions in roster order, the rotating loading messages and
 * the guards against blank input.
 *
 * `localStorage` is a parameter holding the stored text, and `JSON.parse`
 * an oracle from that text to the kind of value it denotes.
 */
module App {
  import opened Common
  import opened JsText
  import opened Types
  import opened JsSort

  // ---------------------------------------------------------------------
  // Pinned members first
  // ---------------------------------------------------------------------

  /** The comparator `(a, b) => Number(b.pinned) - Number(a.pinned)` is
      `key(a) - key(b)` for this key: pinned members sort before the rest. */
  function PinKey(m: FamilyMember): int {
    if m.pinned then 0 else 1
  }

  /** Every pinned member precedes every unpinned one. */
  predicate PinnedFirst(family: seq<FamilyMember>) {
    forall i, j :: 0 <= i < j < |family| && family[j].pinned ==> family[i].pinned
  }

  function Pinned(family: seq<FamilyMember>): seq<FamilyMember> {
    WithKey(family, PinKey, 0)
  }

  function Unpinned(family: seq<FamilyMember>): seq<FamilyMember> {
    WithKey(family, PinKey, 1)
  }

  /** A sequence all of whose keys are `k` keeps all of itself under `k`
      and nothing under another key. */
  lemma {:induction false} WithKeyAll(s: seq<FamilyMember>, k: int, other: int)
    requires k != other
    requires forall i :: 0 <= i < |s| ==> PinKey(s[i]) == k
    ensures WithKey(s, PinKey, k) == s && WithKey(s, PinKey, other) == []
    decreases |s|
  {
    if s != [] {
      WithKeyAll(s[..|s| - 1], k, other);
    }
  }

  /** A sequence sorted by `PinKey` is its pinned members followed by its
      unpinned ones. */
  lemma {:induction false} SortedSplits(r: seq<FamilyMember>)
    requires SortedByKey(r, PinKey)
    ensures r == Pinned(r) + Unpinned(r)
    decreases |r|
  {
    if r != [] {
      var init, last := r[..|r| - 1], r[|r| - 1];
      assert r == init + [last];
      if last.pinned {
        forall i | 0 <= i < |init| ensures PinKey(init[i]) == 0 {
          assert PinKey(r[i]) <= PinKey(r[|r| - 1]);
        }
        WithKeyAll(init, 0, 1);
        assert Pinned(r) == init + [last];
        assert Unpinned(r) == [];
      } else {
        forall i, j | 0 <= i < j < |init| ensures PinKey(init[i]) <= PinKey(init[j]) {
          assert PinKey(r[i]) <= PinKey(r[j]);
        }
        SortedSplits(init);
        assert Pinned(r) == Pinned(init);
        assert Unpinned(r) == Unpinned(init) + [last];
      }
    }
  }

  /** The stable pinned-first sort puts the pinned members first and the
      unpinned ones after them, each group in its original order. */
  lemma PinSortSplits(family: seq<FamilyMember>)
    ensures SortByKey(family, PinKey) == Pinned(family) + Unpinned(family)
    ensures PinnedFirst(SortByKey(family, PinKey))
  {
    var r := SortByKey(family, PinKey);
    SortSorted(family, PinKey);
    SortedSplits(r);
    SortStable(family, PinKey, 0);
    SortStable(family, PinKey, 1);
    forall i, j | 0 <= i < j < |r| && r[j].pinned ensures r[i].pinned {
      assert PinKey(r[i]) <= PinKey(r[j]);
    }
  }

  /** The pinned-first sort keeps the members: it is a permutation. */
  lemma PinSortPermutes(family: seq<FamilyMember>)
    ensures multiset(SortByKey(family, PinKey)) == multiset(family)
  {
    SortPermutes(family, PinKey);
  }

  /** Sorts the members in place, pinned members first, as
      `familyData.sort(...)` and `updatedFamily.sort(...)` do. */
  method SortPinnedFirst(family: seq<FamilyMember>) returns (sorted: seq<FamilyMember>)
    ensures sorted == SortByKey(family, PinKey)
  {
    var a := new FamilyMember[|family|](i requires 0 <= i < |family| => family[i]);
    assert a[..] == family;
    Sort(a, PinKey);
    sorted := a[..];
  }

  // ---------------------------------------------------------------------
  // Toggling a pin
  // ---------------------------------------------------------------------

  /** `currentFamily.map(member => member.name === memberName ? {...member,
      pinned: !member.pinned} : member)` */
  function Toggled(family: seq<FamilyMember>, memberName: string): (r: seq<FamilyMember>)
    ensures |r| == |family|
    ensures forall i :: 0 <= i < |r| ==> r[i].name == family[i].name
    ensures forall i :: 0 <= i < |r| ==> r[i].pinned == (family[i].pinned != (family[i].name == memberName))
  {
    seq(|family|, i requires 0 <= i < |family| =>
      if family[i].name == memberName then FamilyMember(family[i].name, !family[i].pinned) else family[i])
  }

  /** Toggling the same name twice gives the roster back. */
  lemma ToggleTwice(family: seq<FamilyMember>, memberName: string)
    ensures Toggled(Toggled(family, memberName), memberName) == family
  {
    var r := Toggled(Toggled(family, memberName), memberName);
    assert forall i :: 0 <= i < |r| ==> r[i] == family[i];
  }

  /** `handleTogglePin(memberName)`: flips the pins of the members of that
      name, then sorts pinned members first. */
  method TogglePin(family: seq<FamilyMember>, memberName: string) returns (updated: seq<FamilyMember>)
    ensures updated == SortByKey(Toggled(family, memberName), PinKey)
  {
    var flipped := new FamilyMember[|family|];
    var i := 0;
    while i < |family|
      invariant 0 <= i <= |family|
      invariant flipped[..i] == Toggled(family, memberName)[..i]
    {
      var member := family[i];
      flipped[i] := if member.name == memberName then FamilyMember(member.name, !member.pinned) else member;
      i := i + 1;
    }
    assert flipped[..] == Toggled(family, memberName);
    Sort(flipped, PinKey);
    updated := flipped[..];
  }

  /** After a toggle the roster is the toggled members, pinned ones first,
      each group in roster order. */
  lemma TogglePinOrder(family: seq<FamilyMember>, memberName: string)
    ensures var updated := SortByKey(Toggled(family, memberName), PinKey);
      && PinnedFirst(updated)
      && updated == Pinned(Toggled(family, memberName)) + Unpinned(Toggled(family, memberName))
      && multiset(updated) == multiset(Toggled(family, memberName))
  {
    PinSortSplits(Toggled(family, memberName));
    PinSortPermutes(Toggled(family, memberName));
  }

  // ---------------------------------------------------------------------
  // Loading the stored roster
  // ---------------------------------------------------------------------

  /** The roster when nothing usable is stored. */
  const DefaultRoster: seq<FamilyMember> := [
    FamilyMember("Adult", true),
    FamilyMember("Child (5-12)", false),
    FamilyMember("Toddler (1-4)", false),
    FamilyMember("Baby (0-1)", false)]

  lemma DefaultRosterSorted()
    ensures PinnedFirst(DefaultRoster)
    ensures forall i :: 0 <= i < |DefaultRoster| ==> (DefaultRoster[i].pinned <==> i == 0)
    ensures SortByKey(DefaultRoster, PinKey) == DefaultRoster
  {
    var d := DefaultRoster;
    assert SortedByKey(d, PinKey);
    SortedSplits(d);
    PinSortSplits(d);
    SortStable(d, PinKey, 0);
    SortStable(d, PinKey, 1);
  }

  /** What `JSON.parse` of the stored roster gives: an array whose first
      element is a string (or an empty array), an array of members, or
      something that is not an array (on which `sort` throws). */
  datatype StoredRoster = LegacyNames(names: seq<string>) | Members(members: seq<FamilyMember>) | NotAnArray

  /** The legacy migration: every name becomes a member, pinned when it is
      "Adult". */
  function Migrate(names: seq<string>): (family: seq<FamilyMember>)
    ensures |family| == |names|
    ensures forall i :: 0 <= i < |names| ==> family[i] == FamilyMember(names[i], names[i] == "Adult")
  {
    seq(|names|, i requires 0 <= i < |names| => FamilyMember(names[i], names[i] == "Adult"))
  }

  /** The roster the app starts with, given what is stored. */
  function InitialRoster(stored: Option<string>, parse: string -> Result<StoredRoster, Error>): seq<FamilyMember> {
    if stored.None? || stored.value == "" then DefaultRoster
    else
      match parse(stored.value)
      case Err(_) => DefaultRoster
      case Ok(LegacyNames(names)) => SortByKey(Migrate(names), PinKey)
      case Ok(Members(members)) => SortByKey(members, PinKey)
      case Ok(NotAnArray) => DefaultRoster
  }

  /** The initialiser of the `family` state. */
  method LoadRoster(stored: Option<string>, parse: string -> Result<StoredRoster, Error>)
    returns (family: seq<FamilyMember>)
    ensures family == InitialRoster(stored, parse)
  {
    if stored.Some? && stored.value != "" {
      var parsed := parse(stored.value);
      if parsed.Ok? && !parsed.value.NotAnArray? {
        var familyData := if parsed.value.LegacyNames? then Migrate(parsed.value.names) else parsed.value.members;
        family := SortPinnedFirst(familyData);
        return;
      }
    }
    family := DefaultRoster;
  }

  /** The loaded roster always has its pinned members first. */
  lemma InitialRosterPinnedFirst(stored: Option<string>, parse: string -> Result<StoredRoster, Error>)
    ensures PinnedFirst(InitialRoster(stored, parse))
  {
    DefaultRosterSorted();
    if stored.Some? && stored.value != "" {
      match parse(stored.value)
      case Err(_) =>
      case Ok(LegacyNames(names)) => PinSortSplits(Migrate(names));
      case Ok(Members(members)) => PinSortSplits(members);
      case Ok(NotAnArray) =>
    }
  }

  /** A legacy roster keeps its names, in order within each group; only
      "Adult" is pinned, and an empty legacy array gives an empty roster. */
  lemma LegacyRoster(text: string, names: seq<string>, parse: string -> Result<StoredRoster, Error>)
    requires text != "" && parse(text) == Ok(LegacyNames(names))
    ensures var family := InitialRoster(Some(text), parse);
      && family == Pinned(Migrate(names)) + Unpinned(Migrate(names))
      && multiset(family) == multiset(Migrate(names))
      && (forall m :: m in family ==> (m.pinned <==> m.name == "Adult"))
      && (names == [] ==> family == [])
  {
    PinSortSplits(Migrate(names));
    PinSortPermutes(Migrate(names));
    var family := InitialRoster(Some(text), parse);
    forall m | m in family ensures m.pinned <==> m.name == "Adult" {
      assert m in multiset(Migrate(names));
    }
  }

  /** Nothing stored, an empty string, unparsable text or a non-array all
      give the default roster. */
  lemma DefaultWhenUnusable(stored: Option<string>, parse: string -> Result<StoredRoster, Error>)
    requires stored.None? || stored.value == "" || parse(stored.value).Err? || parse(stored.value) == Ok(NotAnArray)
    ensures InitialRoster(stored, parse) == DefaultRoster
  {
  }

  // ---------------------------------------------------------------------
  // Temperature unit
  // ---------------------------------------------------------------------

  /** The stored unit is kept only when it is exactly "C" or "F". */
  function StoredTempUnit(stored: Option<string>): (unit: TempUnit)
    ensures unit == Fahrenheit <==> stored == Some("F")
    ensures unit == Celsius <==> stored != Some("F")
  {
    if stored == Some("F") then Fahrenheit else Celsius
  }

  // ---------------------------------------------------------------------
  // Suggestions in roster order
  // ---------------------------------------------------------------------

  /** `names.indexOf(name)`: the first position of `name`, or -1. */
  function NameIndex(names: seq<string>, name: string): (r: int)
    ensures -1 <= r < |names|
    ensures r == -1 <==> name !in names
    ensures r >= 0 ==> names[r] == name && name !in names[..r]
  {
    if |names| == 0 then -1
    else if names[0] == name then 0
    else
      var r := NameIndex(names[1..], name);
      if r == -1 then
        assert forall k :: 0 <= k < |names| ==> k == 0 || names[k] == names[1..][k - 1];
        -1
      else
        assert names[..r + 1] == [names[0]] + names[1..][..r];
        r + 1
  }

  /** The sort key of a suggestion: its member's position in the roster. */
  function RosterKey(names: seq<string>): ClothingSuggestion -> int {
    (s: ClothingSuggestion) => NameIndex(names, s.member)
  }

  /** `result.suggestions.sort((a, b) => familyNames.indexOf(a.member) -
      familyNames.indexOf(b.member))` */
  method ReorderSuggestions(suggestions: seq<ClothingSuggestion>, familyNames: seq<string>)
    returns (ordered: seq<ClothingSuggestion>)
    ensures ordered == SortByKey(suggestions, RosterKey(familyNames))
  {
    var a := new ClothingSuggestion[|suggestions|](i requires 0 <= i < |suggestions| => suggestions[i]);
    assert a[..] == suggestions;
    Sort(a, RosterKey(familyNames));
    ordered := a[..];
  }

  /** The reorder is a permutation; suggestions for members outside the
      roster come first, then the others in roster order; suggestions for
      the same member keep their order. */
  lemma ReorderProperties(suggestions: seq<ClothingSuggestion>, familyNames: seq<string>)
    ensures var ordered := SortByKey(suggestions, RosterKey(familyNames));
      && multiset(ordered) == multiset(suggestions)
      && (forall i, j :: 0 <= i < j < |ordered| && ordered[j].member !in familyNames ==> ordered[i].member !in familyNames)
      && (forall i, j :: 0 <= i < j < |ordered| && ordered[i].member in familyNames && ordered[j].member in familyNames
            ==> NameIndex(familyNames, ordered[i].member) <= NameIndex(familyNames, ordered[j].member))
      && (forall k :: WithKey(ordered, RosterKey(familyNames), k) == WithKey(suggestions, RosterKey(familyNames), k))
  {
    var key := RosterKey(familyNames);
    var ordered := SortByKey(suggestions, key);
    SortPermutes(suggestions, key);
    SortSorted(suggestions, key);
    forall k ensures WithKey(ordered, key, k) == WithKey(suggestions, key, k) {
      SortStable(suggestions, key, k);
    }
    forall i, j | 0 <= i < j < |ordered| && ordered[j].member !in familyNames
      ensures ordered[i].member !in familyNames
    {
      assert key(ordered[i]) <= key(ordered[j]);
    }
    forall i, j | 0 <= i < j < |ordered| && ordered[i].member in familyNames && ordered[j].member in familyNames
      ensures NameIndex(familyNames, ordered[i].member) <= NameIndex(familyNames, ordered[j].member)
    {
      assert key(ordered[i]) <= key(ordered[j]);
    }
  }

  /** The suggestions of a response are reordered when there are any. */
  method ReorderResponse(result: GeminiResponse, familyNames: seq<string>) returns (r: GeminiResponse)
    ensures r.weather == result.weather
    ensures result.suggestions.None? ==> r == result
    ensures result.suggestions.Some? ==>
      r.suggestions == Some(SortByKey(result.suggestions.value, RosterKey(familyNames)))
  {
    r := result;
    if result.suggestions.Some? {
      var ordered := ReorderSuggestions(result.suggestions.value, familyNames);
      r := GeminiResponse(result.weather, Some(ordered));
    }
  }

  // ---------------------------------------------------------------------
  // Loading messages
  // ---------------------------------------------------------------------

  /** The messages shown while the daily suggestions load. */
  function DailyMessages(day: string, familyNames: seq<string>): (messages: seq<string>)
    ensures |messages| == |familyNames| + 4
    ensures forall i :: 0 <= i < |familyNames| ==> messages[i + 3] == "Tailoring suggestions for " + familyNames[i] + "..."
  {
    ["Fetching " + day + "'s forecast...", "Analyzing local weather patterns...", "Considering your daily schedule..."]
    + seq(|familyNames|, i requires 0 <= i < |familyNames| => "Tailoring suggestions for " + familyNames[i] + "...")
    + ["Finalizing recommendations..."]
  }

  /** The messages shown while the travel suggestions load. */
  function TravelMessages(travelInput: string, familyNames: seq<string>): (messages: seq<string>)
    ensures |messages| == |familyNames| + 4
    ensures forall i :: 0 <= i < |familyNames| ==> messages[i + 2] == "Creating packing list for " + familyNames[i] + "..."
  {
    ["Generating packing list for " + travelInput + "...", "Researching typical weather conditions..."]
    + seq(|familyNames|, i requires 0 <= i < |familyNames| => "Creating packing list for " + familyNames[i] + "...")
    + ["Adding travel essentials...", "Finalizing your packing list..."]
  }

  /** The position in a cycle of length `n` after `k` steps from 0. */
  function Position(k: nat, n: nat): (p: nat)
    requires n > 0
    ensures p < n
  {
    if k == 0 then 0
    else
      var p := Position(k - 1, n);
      if p + 1 == n then 0 else p + 1
  }

  /** `(p + 1) % n` wraps to 0 exactly at `n`. */
  lemma Wrap(p: int, n: int)
    requires 0 <= p < n
    ensures (p + 1) % n == if p + 1 == n then 0 else p + 1
  {
  }

  /** The first `n` steps visit `0, 1, ..., n - 1` and step `n` is back at 0. */
  lemma {:induction false} PositionCounts(k: nat, n: nat)
    requires 0 < n && k <= n
    ensures Position(k, n) == if k == n then 0 else k
  {
    if k > 0 {
      PositionCounts(k - 1, n);
    }
  }

  /** The cycle repeats every `n` steps. */
  lemma {:induction false} PositionPeriodic(k: nat, n: nat)
    requires n > 0
    ensures Position(k + n, n) == Position(k, n)
  {
    if k == 0 {
      PositionCounts(n, n);
    } else {
      PositionPeriodic(k - 1, n);
    }
  }

  /** The loading message and the `messageIndex` counter the interval
      advances every 2.5 seconds. */
  class LoadingTicker {
    const messages: seq<string>
    var messageIndex: int
    var shown: string
    /** How many times the interval has fired. */
    ghost var ticks: nat

    /** The counter stays in range and the shown message cycles through
        the messages in order. */
    ghost predicate Valid()
      reads this
    {
      && |messages| >= 2
      && 0 <= messageIndex < |messages|
      && messageIndex == Position(ticks + 1, |messages|)
      && shown == messages[Position(ticks, |messages|)]
    }

    /** The first message is shown at once and the counter moves to 1. */
    constructor (messages: seq<string>)
      requires |messages| >= 2
      ensures Valid() && ticks == 0
      ensures this.messages == messages && shown == messages[0] && messageIndex == 1
    {
      this.messages := messages;
      shown := messages[0];
      messageIndex := 1;
      ticks := 0;
    }

    /** One firing of the interval. */
    method Tick()
      requires Valid()
      modifies this
      ensures Valid() && ticks == old(ticks) + 1
      ensures shown == messages[old(messageIndex)]
      ensures messageIndex == (old(messageIndex) + 1) % |messages|
    {
      Wrap(messageIndex, |messages|);
      shown := messages[messageIndex];
      messageIndex := (messageIndex + 1) % |messages|;
      ticks := ticks + 1;
    }
  }


  // ---------------------------------------------------------------------
  // Guards against blank input
  // ---------------------------------------------------------------------

  const BlankLocation := "Please enter a location to get suggestions."
  const NoGeolocation := "Geolocation is not supported by your browser. Please enter your location manually."
  const BlankTravel := "Please enter a destination and duration."

  /** What `handleGetSuggestions` does next. */
  datatype DailyStep =
    | SearchLocation(location: string)   // the manual-location service call
    | DailyError(message: string)        // an error; no service call
    | ExplainPermission                  // the in-app explanation first
    | RequestPosition                    // ask the browser for the position

  function DailyDecision(showManualLocation: bool, manualLocationInput: string, hasGeolocation: bool,
                         skipPermissionPrompt: bool): (step: DailyStep)
    ensures showManualLocation ==>
      (step == DailyError(BlankLocation) <==> IsBlank(manualLocationInput))
    ensures showManualLocation && !IsBlank(manualLocationInput) ==> step == SearchLocation(manualLocationInput)
    ensures !showManualLocation ==> !step.SearchLocation?
    ensures !showManualLocation && !hasGeolocation ==> step == DailyError(NoGeolocation)
    ensures !showManualLocation && hasGeolocation && !skipPermissionPrompt ==> step == ExplainPermission
    ensures step == RequestPosition <==> !showManualLocation && hasGeolocation && skipPermissionPrompt
  {
    if showManualLocation then
      if IsBlank(manualLocationInput) then DailyError(BlankLocation) else SearchLocation(manualLocationInput)
    else if !hasGeolocation then DailyError(NoGeolocation)
    else if !skipPermissionPrompt then ExplainPermission
    else RequestPosition
  }

  /** What `handleGetTravelSuggestions` does: an error for a blank input,
      otherwise the service call with the input as typed. */
  function TravelDecision(travelInput: string): (r: Result<string, string>)
    ensures r.Err? <==> IsBlank(travelInput)
    ensures r.Err? ==> r.error == BlankTravel
    ensures r.Ok? ==> r.value == travelInput
  {
    if IsBlank(travelInput) then Err(BlankTravel) else Ok(travelInput)
  }

  const PermissionDenied := "Location access denied. Please enable it in your browser settings or enter your location manually below."
  const PositionUnavailable := "Could not retrieve your location. Please enter it manually below."

  /** The message shown when the position cannot be had: the permission
      message exactly for a refused permission, the general one for every
      other failure. */
  function GeolocationErrorMessage(permissionDenied: bool): (message: string)
    ensures permissionDenied <==> message == PermissionDenied
    ensures !permissionDenied ==> message == PositionUnavailable
  {
    if permissionDenied then PermissionDenied else PositionUnavailable
  }
}
