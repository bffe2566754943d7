/** The `calculations` memo of the tracker hook: BMI with its category, basal metabolic
    rate (BMR) and total daily energy expenditure (TDEE) from the profile. */
module Metrics {
  import opened Wrappers
  import opened Numbers
  import opened Types

  datatype BmiCategory = NoCategory | Underweight | NormalWeight | Overweight | ObesityI | ObesityII | ObesityIII

  /** The category as the program displays it. */
  function Label(c: BmiCategory): string {
    match c
    case NoCategory => ""
    case Underweight => "Abaixo do Peso"
    case NormalWeight => "Peso Normal"
    case Overweight => "Sobrepeso"
    case ObesityI => "Obesidade Grau I"
    case ObesityII => "Obesidade Grau II"
    case ObesityIII => "Obesidade Grau III"
  }

  /** Position of a category on the BMI scale. */
  function Rank(c: BmiCategory): nat {
    match c
    case NoCategory => 0
    case Underweight => 1
    case NormalWeight => 2
    case Overweight => 3
    case ObesityI => 4
    case ObesityII => 5
    case ObesityIII => 6
  }

  datatype Calculations = Calculations(bmi: real, bmr: int, tdee: int, bmiCategory: BmiCategory)

  const NoCalculations := Calculations(0.0, 0, 0, NoCategory)

  /** The category of a BMI value: closed-open bands at 18.5, 25, 30, 35 and 40. */
  function Category(bmi: real): (c: BmiCategory)
    ensures c == Underweight <==> bmi < 18.5
    ensures c == NormalWeight <==> 18.5 <= bmi < 25.0
    ensures c == Overweight <==> 25.0 <= bmi < 30.0
    ensures c == ObesityI <==> 30.0 <= bmi < 35.0
    ensures c == ObesityII <==> 35.0 <= bmi < 40.0
    ensures c == ObesityIII <==> 40.0 <= bmi
  {
    if bmi < 18.5 then Underweight
    else if bmi < 25.0 then NormalWeight
    else if bmi < 30.0 then Overweight
    else if bmi < 35.0 then ObesityI
    else if bmi < 40.0 then ObesityII
    else ObesityIII
  }

  /** A heavier BMI never falls into a lighter category. */
  lemma CategoryMonotone(x: real, y: real)
    requires x <= y
    ensures 1 <= Rank(Category(x)) <= Rank(Category(y))
  {
  }

  /** The activity multiplier table. */
  function Multiplier(level: ActivityLevel): (m: real)
    ensures 1.2 <= m <= 1.9
  {
    match level
    case Sedentary => 1.2
    case LightlyActive => 1.375
    case ModeratelyActive => 1.55
    case VeryActive => 1.725
    case ExtraActive => 1.9
  }

  /** What the calculation reads from the profile once the guard has passed. */
  datatype Readings = Readings(age: int, height: real, weight: real, bodyFat: Option<real>,
                               gender: Gender, level: ActivityLevel)

  /** `parseFloat(bodyFat || '0')`: a missing or empty field reads as 0; `None` stands for NaN. */
  function BodyFatReading(bodyFat: Option<Text>): (r: Option<real>)
    ensures bodyFat.None? || bodyFat == Some(Blank) ==> r == Some(0.0)
    ensures r.Some? && r.value != 0.0 ==> bodyFat.Some? && bodyFat.value == Num(r.value)
  {
    match bodyFat
    case None => Some(0.0)
    case Some(Blank) => Some(0.0)
    case Some(t) => ParseFloat(t)
  }

  /** The guard `!ageNum || !heightNum || !weightNum || !gender` and the readings behind it:
      age, height and weight must read as non-zero numbers and a gender must be chosen. */
  function Read(u: UserInfo): (r: Option<Readings>)
    ensures r.Some? <==>
      && u.age.Num? && Trunc(u.age.value) != 0
      && u.height.Num? && u.height.value != 0.0
      && u.weight.Num? && u.weight.value != 0.0
      && u.gender != NoGender
    ensures r.Some? ==> r.value.height != 0.0 && r.value.gender != NoGender
  {
    match (ParseInt(u.age), ParseFloat(u.height), ParseFloat(u.weight))
    case (Some(age), Some(height), Some(weight)) =>
      if age != 0 && height != 0.0 && weight != 0.0 && u.gender != NoGender
      then Some(Readings(age, height, weight, BodyFatReading(u.bodyFat), u.gender, u.activityLevel))
      else None
    case _ => None
  }

  /** Weight over height in metres, squared. */
  function Bmi(r: Readings): real
    requires r.height != 0.0
  {
    var heightM := r.height / 100.0;
    r.weight / (heightM * heightM)
  }

  /** Katch-McArdle from lean mass when a positive body-fat percentage is known,
      otherwise the revised Harris-Benedict equation for the chosen sex. */
  function Bmr(r: Readings): real {
    if r.bodyFat.Some? && r.bodyFat.value > 0.0 then
      var leanMass := r.weight * (1.0 - r.bodyFat.value / 100.0);
      370.0 + 21.6 * leanMass
    else if r.gender == Male then
      88.362 + 13.397 * r.weight + 4.799 * r.height - 5.677 * r.age as real
    else
      447.593 + 9.247 * r.weight + 3.098 * r.height - 4.330 * r.age as real
  }

  /** `calculations`: all zero with no category unless the guard passes; otherwise the rounded
      BMI (one decimal), BMR and TDEE, and the category of the unrounded BMI. */
  function Calculate(u: UserInfo): (c: Calculations)
    ensures c.bmiCategory == NoCategory <==> Read(u).None?
    ensures Read(u).None? ==> c == NoCalculations
  {
    match Read(u)
    case None => NoCalculations
    case Some(r) =>
      var bmi := Bmi(r);
      var bmr := Bmr(r);
      Calculations(RoundTenth(bmi), Round(bmr), Round(bmr * Multiplier(r.level)), Category(bmi))
  }

  /** A new user (empty profile) has no metrics. */
  lemma NewUserHasNoMetrics()
    ensures Calculate(DefaultUserInfo) == NoCalculations
  {
  }

  /** The BMR formula is chosen by the body-fat field: lean-mass based exactly when the field
      reads as a positive number, otherwise by sex. */
  lemma BmrFormulaChoice(u: UserInfo)
    requires Read(u).Some?
    ensures var w, h, a := u.weight.value, u.height.value, Trunc(u.age.value) as real;
      && (u.bodyFat.Some? && u.bodyFat.value.Num? && u.bodyFat.value.value > 0.0 ==>
            Calculate(u).bmr == Round(370.0 + 21.6 * (w * (1.0 - u.bodyFat.value.value / 100.0))))
      && (!(u.bodyFat.Some? && u.bodyFat.value.Num? && u.bodyFat.value.value > 0.0) && u.gender == Male ==>
            Calculate(u).bmr == Round(88.362 + 13.397 * w + 4.799 * h - 5.677 * a))
      && (!(u.bodyFat.Some? && u.bodyFat.value.Num? && u.bodyFat.value.value > 0.0) && u.gender == Female ==>
            Calculate(u).bmr == Round(447.593 + 9.247 * w + 3.098 * h - 4.330 * a))
  {
    if u.bodyFat.Some? && u.bodyFat.value.Num? && u.bodyFat.value.value > 0.0 {
      LeanMassBmrOf(u);
    } else {
      SexBmrOf(u);
    }
  }

  /** A positive body-fat reading selects the lean-mass formula. */
  lemma LeanMassBmrOf(u: UserInfo)
    requires Read(u).Some? && u.bodyFat.Some? && u.bodyFat.value.Num? && u.bodyFat.value.value > 0.0
    ensures Calculate(u).bmr == Round(370.0 + 21.6 * (u.weight.value * (1.0 - u.bodyFat.value.value / 100.0)))
  {
    var r := Read(u).value;
    ReadFields(u);
    CalculatedBmr(u);
    assert r.bodyFat == Some(u.bodyFat.value.value);
    LeanMassBmr(r);
  }

  /** Without a positive body-fat reading the formula is chosen by sex. */
  lemma SexBmrOf(u: UserInfo)
    requires Read(u).Some? && !(u.bodyFat.Some? && u.bodyFat.value.Num? && u.bodyFat.value.value > 0.0)
    ensures var w, h, a := u.weight.value, u.height.value, Trunc(u.age.value) as real;
      && (u.gender == Male ==> Calculate(u).bmr == Round(88.362 + 13.397 * w + 4.799 * h - 5.677 * a))
      && (u.gender == Female ==> Calculate(u).bmr == Round(447.593 + 9.247 * w + 3.098 * h - 4.330 * a))
  {
    var r := Read(u).value;
    ReadFields(u);
    CalculatedBmr(u);
    assert !(r.bodyFat.Some? && r.bodyFat.value > 0.0);
  }

  /** With a positive body-fat reading the BMR is the lean-mass formula. */
  lemma LeanMassBmr(r: Readings)
    requires r.bodyFat.Some? && r.bodyFat.value > 0.0
    ensures Bmr(r) == 370.0 + 21.6 * (r.weight * (1.0 - r.bodyFat.value / 100.0))
  {
  }

  /** The readings are the profile's fields, parsed. */
  lemma ReadFields(u: UserInfo)
    requires Read(u).Some?
    ensures var r := Read(u).value;
      && r.age == Trunc(u.age.value) && r.height == u.height.value && r.weight == u.weight.value
      && r.bodyFat == BodyFatReading(u.bodyFat) && r.gender == u.gender && r.level == u.activityLevel
  {
  }

  /** The BMR shown is the rounded formula value. */
  lemma CalculatedBmr(u: UserInfo)
    requires Read(u).Some?
    ensures Calculate(u).bmr == Round(Bmr(Read(u).value))
  {
  }

  /** Once the guard passes, the shown BMI is the profile's weight over its height in metres
      squared, rounded to one decimal; the category is that of the unrounded BMI (so its
      bands are the closed-open ones of `Category`); and the TDEE is the unrounded BMR times
      the multiplier of the chosen activity level, rounded. */
  lemma CalculatedBmiAndTdee(u: UserInfo)
    requires Read(u).Some?
    ensures var w, hm := u.weight.value, u.height.value / 100.0;
      && Calculate(u).bmi == RoundTenth(w / (hm * hm))
      && w / (hm * hm) - 0.05 < Calculate(u).bmi <= w / (hm * hm) + 0.05
      && Calculate(u).bmiCategory == Category(w / (hm * hm))
      && (Calculate(u).bmiCategory == NormalWeight <==> 18.5 <= w / (hm * hm) < 25.0)
      && Calculate(u).tdee == Round(Bmr(Read(u).value) * Multiplier(u.activityLevel))
  {
    var r := Read(u).value;
    CalculatedFromReadings(u);
    BmiOfProfile(u);
    var x := Bmi(r);
    assert Calculate(u).bmi == RoundTenth(x);
    assert Calculate(u).bmiCategory == Category(x);
  }

  /** The calculation from the readings: rounded BMI, BMR and TDEE, category of the exact BMI. */
  lemma CalculatedFromReadings(u: UserInfo)
    requires Read(u).Some?
    ensures var r := Read(u).value;
      Calculate(u) == Calculations(RoundTenth(Bmi(r)), Round(Bmr(r)), Round(Bmr(r) * Multiplier(r.level)),
                                   Category(Bmi(r)))
  {
  }

  /** The BMI of the readings is the profile's weight over its height in metres squared. */
  lemma BmiOfProfile(u: UserInfo)
    requires Read(u).Some?
    ensures var hm := u.height.value / 100.0;
      Bmi(Read(u).value) == u.weight.value / (hm * hm)
  {
    ReadFields(u);
  }

  /** TDEE scales BMR by the activity multiplier, so it is never below a non-negative BMR. */
  lemma TdeeAtLeastBmr(u: UserInfo)
    requires Read(u).Some? && Bmr(Read(u).value) >= 0.0
    ensures Calculate(u).tdee >= Calculate(u).bmr
  {
    var r := Read(u).value;
    var bmr := Bmr(r);
    assert bmr * Multiplier(r.level) >= bmr * 1.0;
    RoundMonotone(bmr, bmr * Multiplier(r.level));
  }

  /** With height, age, sex and activity fixed, a heavier weight never lowers the BMI
      category. */
  lemma HeavierNeverLowersCategory(u: UserInfo, heavier: real)
    requires Read(u).Some? && u.weight.value <= heavier
    ensures var v := u.(weight := Num(heavier));
      Read(v).Some? ==> Rank(Calculate(u).bmiCategory) <= Rank(Calculate(v).bmiCategory)
  {
    var v := u.(weight := Num(heavier));
    if Read(v).Some? {
      var r, s := Read(u).value, Read(v).value;
      var hm := r.height / 100.0;
      assert hm * hm > 0.0;
      assert s == r.(weight := heavier);
      assert r.weight / (hm * hm) <= heavier / (hm * hm);
      CategoryMonotone(Bmi(r), Bmi(s));
    }
  }
}
