/** The personal-information form (src/components/PersonalInfo.tsx): the local copy of the
    profile edited field by field, the guard before it is written back, and the basal and
    total energy expenditure computed from lean mass. */
module PersonalInfo {
  import opened Wrappers
  import opened Numbers

  /** The profile as the form holds it: field name to the value typed in. */
  type Profile = map<string, Text>

  /** The fields read as numbers. */
  const NumericFields: set<string> := {"age", "weight", "leanMass", "fatPercentage"}

  /** No numeric field holds text that is not a number. */
  predicate NumbersClean(p: Profile) {
    forall name :: name in p && name in NumericFields ==> !p[name].Word?
  }

  /** The updater passed to `setLocalUserInfo` on a change of field `name` to `value`.
      A numeric field takes the empty string or a number and ignores anything else; the
      activity level takes only one of the accepted level names; every other field takes
      whatever was typed. */
  function Updated(prev: Profile, name: string, value: Text, levels: set<string>): (r: Profile)
    ensures forall k :: k != name ==> (k in r <==> k in prev) && (k in r ==> r[k] == prev[k])
    ensures name in NumericFields ==> (r == prev <==> value.Word? || (name in prev && prev[name] == value))
    ensures name in NumericFields && !value.Word? ==> r == prev[name := value]
    ensures name == "activityLevel" ==>
      r == (if value.Word? && value.word in levels then prev[name := value] else prev)
    ensures name !in NumericFields && name != "activityLevel" ==> r == prev[name := value]
  {
    if name in NumericFields then
      if value.Word? then prev else prev[name := value]
    else if name == "activityLevel" then
      if value.Word? && value.word in levels then prev[name := value] else prev
    else prev[name := value]
  }

  /** Editing never lets text that is not a number into a numeric field. */
  lemma UpdateKeepsNumbersClean(prev: Profile, name: string, value: Text, levels: set<string>)
    requires NumbersClean(prev)
    ensures NumbersClean(Updated(prev, name, value, levels))
  {
  }

  /** `Number(leanMass)`: a missing field reads as NaN. */
  function LeanMass(p: Profile): (r: Option<real>)
    ensures "leanMass" !in p ==> r.None?
  {
    if "leanMass" in p then NumberOf(p["leanMass"]) else None
  }

  /** `calculateTMB` (the Cunningham equation): 500 + 22 kcal per kg of lean mass, and 0
      when the lean mass is missing, not a number, zero or negative. */
  function Tmb(p: Profile): (r: real)
    ensures r >= 0.0
    ensures r == 0.0 <==> !(LeanMass(p).Some? && LeanMass(p).value > 0.0)
    ensures r > 0.0 ==> r > 500.0 && r == 500.0 + 22.0 * LeanMass(p).value
  {
    var lean := LeanMass(p);
    if lean.None? || lean.value <= 0.0 then 0.0 else 500.0 + 22.0 * lean.value
  }

  /** `activityFactors[level]`, or 1.2 when the level is not one of its keys. */
  function Factor(level: Option<Text>): (r: real)
    ensures 1.2 <= r <= 1.9
    ensures r != 1.2 ==> (level.Some? && level.value.Word? &&
      level.value.word in {"light", "moderate", "active", "extra_active"})
  {
    if level.Some? && level.value.Word? then
      match level.value.word
      case "sedentary" => 1.2
      case "light" => 1.375
      case "moderate" => 1.55
      case "active" => 1.725
      case "extra_active" => 1.9
      case _ => 1.2
    else 1.2
  }

  function LevelOf(p: Profile): Option<Text> {
    if "activityLevel" in p then Some(p["activityLevel"]) else None
  }

  /** `calculateTDEE`: the basal rate times the activity factor, rounded. */
  function Tdee(p: Profile): (r: int)
    ensures Tmb(p) * Factor(LevelOf(p)) - 0.5 < r as real <= Tmb(p) * Factor(LevelOf(p)) + 0.5
  {
    Round(Tmb(p) * Factor(LevelOf(p)))
  }

  /** No basal rate, no total expenditure; and a positive basal rate gives at least 1.2
      times itself, less rounding. */
  lemma TdeeFollowsTmb(p: Profile)
    ensures Tmb(p) == 0.0 ==> Tdee(p) == 0
    ensures Tmb(p) > 0.0 ==> Tdee(p) as real > 1.2 * Tmb(p) - 0.5
  {
  }

  /** Of the level names a stored profile holds only `sedentary` is a key of the factor
      table, and its factor is 1.2 anyway: every one of them counts as 1.2. */
  lemma ProfileLevelsGetDefaultFactor(level: string)
    requires level in {"sedentary", "lightlyActive", "moderatelyActive", "veryActive", "extraActive"}
    ensures Factor(Some(Word(level))) == 1.2
  {
  }

  /** The write-back guard: the debounced copy is saved only when it differs from the
      stored profile. */
  function ShouldSave(debounced: Profile, stored: Profile): (r: bool)
    ensures r <==> exists k :: (k in debounced) != (k in stored) || (k in debounced && k in stored && debounced[k] != stored[k])
  {
    if debounced == stored then false
    else
      DifferingKey(debounced, stored);
      true
  }

  lemma DifferingKey(a: Profile, b: Profile)
    requires a != b
    ensures exists k :: (k in a) != (k in b) || (k in a && k in b && a[k] != b[k])
  {
    if forall k :: (k in a) == (k in b) && (k in a ==> a[k] == b[k]) {
      assert false;
    }
  }

  /** The form's local copy of the profile. */
  class PersonalInfoForm {
    var local: Profile

    constructor (stored: Profile)
      ensures local == stored
    {
      local := stored;
    }

    /** The stored profile changed: the local copy follows it. */
    method Sync(stored: Profile)
      modifies this
      ensures local == stored
    {
      local := stored;
    }

    /** `handleInputChange`: the accepted level names stand for the `ActivityLevel`
        enumeration the form imports, which no file of the program defines. */
    method HandleInputChange(name: string, value: Text, levels: set<string>)
      modifies this
      ensures local == Updated(old(local), name, value, levels)
      ensures NumbersClean(old(local)) ==> NumbersClean(local)
    {
      if NumbersClean(local) {
        UpdateKeepsNumbersClean(local, name, value, levels);
      }
      local := Updated(local, name, value, levels);
    }

    /** The debounced effect: returns the profile to store, if any. */
    method Flush(stored: Profile) returns (save: Option<Profile>)
      ensures save.Some? <==> local != stored
      ensures save.Some? ==> save.value == local
    {
      if ShouldSave(local, stored) {
        save := Some(local);
      } else {
        save := None;
      }
    }
  }
}
