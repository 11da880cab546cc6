/**
 The cooldown between the runs of a job: how its mapping is read, and the wait it gives after a run,
 over exact rationals.
 */
module Cooldowns {
  import opened Options

  datatype Policy =
    | Auto(ratio: real, minimum: real, maximum: real)
    | Manual(seconds: real)
    | Off

  const MAX_COOLDOWN := 3600.0
  const DEFAULT_RATIO := 0.5

  datatype Bound = NoBound | AtMinimum | AtMaximum

  datatype Wait = Wait(seconds: real, bound: Bound)

  function Ceiling(x: real): int {
    if x.Floor as real == x then x.Floor else x.Floor + 1
  }

  /** The share of a run's time, rounded up to a whole second. */
  function Share(seconds: real, ratio: real): real {
    Ceiling(seconds * ratio) as real
  }

  function WaitAfter(policy: Policy, seconds: real): Wait {
    match policy
    case Manual(fixed) => Wait(fixed, NoBound)
    case Off => Wait(0.0, NoBound)
    case Auto(ratio, minimum, maximum) => Clamped(Share(seconds, ratio), minimum, maximum)
  }

  function Clamped(share: real, minimum: real, maximum: real): Wait {
    if share < minimum then Wait(minimum, AtMinimum)
    else if share > maximum then Wait(maximum, AtMaximum)
    else Wait(share, NoBound)
  }

  // --- reading one ------------------------------------------------------------------------------

  datatype Value = Number(value: real) | Text(text: string) | YamlFalse | OtherValue

  function ModeOf(mapping: map<string, Value>): Option<string> {
    if "mode" !in mapping then None
    else if mapping["mode"] == YamlFalse then Some("off")
    else if mapping["mode"].Text? && mapping["mode"].text in {"auto", "manual", "off"} then Some(mapping["mode"].text)
    else None
  }

  function KeysOf(mode: string): set<string> {
    if mode == "auto" then {"ratio", "minimum_seconds", "maximum_seconds"}
    else if mode == "manual" then {"seconds"}
    else {}
  }

  predicate IsCooldown(value: Value) {
    value.Number? && 0.0 <= value.value <= MAX_COOLDOWN
  }

  function NumberOr(mapping: map<string, Value>, key: string, default: real): real {
    if key in mapping && mapping[key].Number? then mapping[key].value else default
  }

  /** The policy a mapping states, or nothing when it is refused. */
  function Parsed(mapping: map<string, Value>): Option<Policy> {
    var mode := ModeOf(mapping);
    if mode.None? then None
    else if exists name | name in mapping :: name != "mode" && name !in KeysOf(mode.value) then None
    else if mode.value == "manual" && "seconds" !in mapping then None
    else if exists name | name in mapping ::
              name in {"seconds", "minimum_seconds", "maximum_seconds"} && !IsCooldown(mapping[name])
    then None
    else if "ratio" in mapping && !(mapping["ratio"].Number? && 0.0 < mapping["ratio"].value <= 1.0) then None
    else if NumberOr(mapping, "minimum_seconds", 0.0) > NumberOr(mapping, "maximum_seconds", MAX_COOLDOWN) then None
    else if mode.value == "auto" then
      Some(Auto(NumberOr(mapping, "ratio", DEFAULT_RATIO),
                NumberOr(mapping, "minimum_seconds", 0.0),
                NumberOr(mapping, "maximum_seconds", MAX_COOLDOWN)))
    else if mode.value == "manual" then Some(Manual(NumberOr(mapping, "seconds", 0.0)))
    else Some(Off)
  }

  /** What reading promises of a policy. */
  predicate Bounded(policy: Policy) {
    match policy
    case Auto(ratio, minimum, maximum) => 0.0 < ratio <= 1.0 && 0.0 <= minimum <= maximum <= MAX_COOLDOWN
    case Manual(seconds) => 0.0 <= seconds <= MAX_COOLDOWN
    case Off => true
  }

  /** Every policy read is bounded, and every bounded policy can be written and is read back as itself. */
  lemma PoliciesRoundTrip(policy: Policy)
    ensures (exists mapping :: Parsed(mapping) == Some(policy)) <==> Bounded(policy)
  {
    if Bounded(policy) {
      var mapping :=
        match policy
        case Auto(ratio, minimum, maximum) =>
          map["mode" := Text("auto"), "ratio" := Number(ratio),
              "minimum_seconds" := Number(minimum), "maximum_seconds" := Number(maximum)]
        case Manual(seconds) => map["mode" := Text("manual"), "seconds" := Number(seconds)]
        case Off => map["mode" := YamlFalse];
      assert Parsed(mapping) == Some(policy);
    }
    forall mapping | Parsed(mapping) == Some(policy) ensures Bounded(policy) {
      ParsedIsBounded(mapping);
    }
  }

  lemma ParsedIsBounded(mapping: map<string, Value>)
    requires Parsed(mapping).Some?
    ensures Bounded(Parsed(mapping).value)
  {
    assert forall name | name in mapping ::
        name in {"seconds", "minimum_seconds", "maximum_seconds"} ==> IsCooldown(mapping[name]);
  }

  /** Each key with the mode that uses it. */
  predicate UsedWith(mode: string, name: string) {
    || name == "mode"
    || (mode == "auto" && name in {"ratio", "minimum_seconds", "maximum_seconds"})
    || (mode == "manual" && name == "seconds")
  }

  predicate StatesMode(mapping: map<string, Value>, mode: string) {
    "mode" in mapping && (mapping["mode"] == Text(mode) || (mode == "off" && mapping["mode"] == YamlFalse))
  }

  predicate Within(mapping: map<string, Value>, name: string, low: real, high: real) {
    name in mapping ==> mapping[name].Number? && low <= mapping[name].value <= high
  }

  /** What the mapping says of `name`, if it says anything. */
  function SaidOr(mapping: map<string, Value>, name: string, default: real): real {
    if name in mapping && mapping[name].Number? then mapping[name].value else default
  }

  /**
   A mapping is read as an automatic policy exactly when it says so, with only that mode's keys, each within its bounds
   and the minimum not over the maximum; what it leaves out is half the run's time, no minimum and an hour at most.
   */
  lemma AutoIsReadExactly(mapping: map<string, Value>)
    ensures
      var low, high := SaidOr(mapping, "minimum_seconds", 0.0), SaidOr(mapping, "maximum_seconds", 3600.0);
      var stated :=
        && StatesMode(mapping, "auto")
        && (forall name | name in mapping :: UsedWith("auto", name))
        && Within(mapping, "minimum_seconds", 0.0, 3600.0) && Within(mapping, "maximum_seconds", 0.0, 3600.0)
        && Within(mapping, "ratio", 0.0, 1.0) && SaidOr(mapping, "ratio", 0.5) > 0.0
        && low <= high;
      && (stated <==> Parsed(mapping).Some? && Parsed(mapping).value.Auto?)
      && (stated ==> Parsed(mapping) == Some(Auto(SaidOr(mapping, "ratio", 0.5), low, high)))
  {
  }

  /**
   As a fixed wait exactly when it says so and gives the seconds, and no other key; as none exactly when it says off.
   */
  lemma OthersAreReadExactly(mapping: map<string, Value>, seconds: real)
    ensures Parsed(mapping) == Some(Manual(seconds)) <==>
            && StatesMode(mapping, "manual")
            && (forall name | name in mapping :: UsedWith("manual", name))
            && "seconds" in mapping && mapping["seconds"] == Number(seconds) && 0.0 <= seconds <= 3600.0
    ensures Parsed(mapping) == Some(Off) <==>
            StatesMode(mapping, "off") && forall name | name in mapping :: UsedWith("off", name)
  {
  }

  // --- the wait ---------------------------------------------------------------------------------

  lemma CeilingIsLeast(x: real, n: int)
    ensures x <= Ceiling(x) as real < x + 1.0
    ensures x <= n as real <==> Ceiling(x) <= n
  {
  }

  lemma SharesAreMonotone(shorter: real, longer: real, ratio: real)
    requires shorter <= longer && ratio > 0.0
    ensures Share(shorter, ratio) <= Share(longer, ratio)
  {
    assert (longer - shorter) * ratio >= 0.0;
    CeilingIsLeast(longer * ratio, 0);
    CeilingIsLeast(shorter * ratio, Ceiling(longer * ratio));
  }

  /**
   A wait is never negative, nor over the hour; and of an automatic one, at least the share asked for, unless the
   maximum sets it.
   */
  lemma WaitsAreBounded(policy: Policy, seconds: real)
    requires Bounded(policy) && seconds >= 0.0
    ensures
      var wait := WaitAfter(policy, seconds);
      && 0.0 <= wait.seconds <= MAX_COOLDOWN
      && (policy.Auto? && !wait.bound.AtMaximum? ==> wait.seconds >= seconds * policy.ratio)
      && (policy.Auto? && wait.bound.NoBound? ==> wait.seconds < seconds * policy.ratio + 1.0)
  {
    if policy.Auto? {
      CeilingIsLeast(seconds * policy.ratio, 0);
    }
  }

  lemma IsRoundedUp(x: real, n: int)
    requires x <= n as real < x + 1.0
    ensures Ceiling(x) == n
  {
    CeilingIsLeast(x, n);
    assert n as real < (Ceiling(x) + 1) as real;
  }

  lemma ShareIs(seconds: real, ratio: real, share: int)
    requires seconds * ratio <= share as real < seconds * ratio + 1.0
    ensures Share(seconds, ratio) == share as real
  {
    var x := seconds * ratio;
    IsRoundedUp(x, share);
    assert Share(seconds, ratio) == Ceiling(x) as real;
  }

  lemma ClampedIsExactly(share: real, minimum: real, maximum: real)
    requires minimum <= maximum
    ensures
      var wait := Clamped(share, minimum, maximum);
      && minimum <= wait.seconds <= maximum
      && (wait.bound.AtMinimum? <==> share < minimum) && (wait.bound.AtMaximum? <==> share > maximum)
      && (wait.bound.NoBound? ==> wait.seconds == share)
      && (wait.bound.AtMinimum? ==> wait.seconds == minimum)
      && (wait.bound.AtMaximum? ==> wait.seconds == maximum)
  {
  }

  /**
   A fixed wait is its seconds and off is none; an automatic one is the whole seconds the share comes to, brought within
   its bounds, and says which bound it was brought to.
   */
  lemma AWaitIsExactly(policy: Policy, seconds: real, share: int)
    requires Bounded(policy) && seconds >= 0.0
    requires policy.Auto? ==> seconds * policy.ratio <= share as real < seconds * policy.ratio + 1.0
    ensures
      var wait := WaitAfter(policy, seconds);
      match policy
      case Manual(fixed) => wait == Wait(fixed, NoBound)
      case Off => wait == Wait(0.0, NoBound)
      case Auto(_, minimum, maximum) =>
        && minimum <= wait.seconds <= maximum
        && (wait.bound.AtMinimum? <==> share as real < minimum)
        && (wait.bound.AtMaximum? <==> share as real > maximum)
        && (minimum <= share as real <= maximum ==> wait.seconds == share as real)
        && (wait.bound.AtMinimum? ==> wait.seconds == minimum)
        && (wait.bound.AtMaximum? ==> wait.seconds == maximum)
  {
    if policy.Auto? {
      ShareIs(seconds, policy.ratio, share);
      assert WaitAfter(policy, seconds) == Clamped(share as real, policy.minimum, policy.maximum);
      ClampedIsExactly(share as real, policy.minimum, policy.maximum);
    }
  }

  /** A longer run is never followed by a shorter wait. */
  lemma WaitsAreMonotone(policy: Policy, shorter: real, longer: real)
    requires Bounded(policy) && shorter <= longer
    ensures WaitAfter(policy, shorter).seconds <= WaitAfter(policy, longer).seconds
  {
    if policy.Auto? {
      SharesAreMonotone(shorter, longer, policy.ratio);
    }
  }

  lemma SharesOfAScaled(share: real, ratio: real) returns (seconds: real)
    requires ratio > 0.0 && share >= 0.0
    ensures seconds >= 0.0
    ensures share <= Share(seconds, ratio) < share + 1.0
  {
    seconds := share / ratio;
    CeilingIsLeast(seconds * ratio, 0);
  }

  /** That rests on the minimum's not being over the maximum: were it, a longer run could be given the shorter wait. */
  lemma CrossedBoundsAreNotMonotone(ratio: real, minimum: real, maximum: real) returns (shorter: real, longer: real)
    requires 0.0 < ratio && 0.0 <= maximum < minimum
    ensures 0.0 <= shorter <= longer
    ensures WaitAfter(Auto(ratio, minimum, maximum), shorter).seconds
          > WaitAfter(Auto(ratio, minimum, maximum), longer).seconds
  {
    shorter := 0.0;
    longer := SharesOfAScaled(minimum + 1.0, ratio);
    assert Share(shorter, ratio) == 0.0 by {
      assert shorter * ratio == 0.0;
    }
  }
}
