/** The clinical calculators page: an all-or-nothing numeric validator, the
    five closed-form formulas (BMI with its category, weight-based dosage,
    Cockcroft-Gault creatinine clearance, IV flow rate, Mosteller body
    surface area) and the state record of each rendered calculator form.
    Arithmetic is over exact reals; `parseFloat` and `Math.sqrt` are
    parameters described by what they return. */
module Calculators {
  import opened Wrappers

  /** The message a failed validation stores in the form's `error` field. */
  const ValidationMessage := "Please enter valid numbers for all fields."

  // ---------------------------------------------------------------------
  // Validation
  // ---------------------------------------------------------------------

  /** `validateAndParse(...values)`: every raw field is run through `parse`
      (`parseFloat`, with `None` for NaN); one unparsable field rejects them
      all, otherwise the numbers come back in field order. */
  function ValidateAndParse(parse: string -> Option<real>, values: seq<string>): (r: Option<seq<real>>)
    ensures r.None? <==> exists i :: 0 <= i < |values| && parse(values[i]).None?
    ensures r.Some? ==> |r.value| == |values|
    ensures r.Some? ==> forall i :: 0 <= i < |values| ==> parse(values[i]) == Some(r.value[i])
  {
    if values == [] then Some([])
    else
      var rest := ValidateAndParse(parse, values[1..]);
      assert forall i :: 1 <= i < |values| ==> values[i] == values[1..][i - 1];
      match parse(values[0])
      case None => None
      case Some(x) =>
        if rest.None? then None else Some([x] + rest.value)
  }

  // ---------------------------------------------------------------------
  // BMI
  // ---------------------------------------------------------------------

  datatype BmiCategory = Underweight | NormalWeight | Overweight | Obese

  /** Body mass index from weight in kilograms and height in centimetres. */
  function Bmi(weight: real, heightCm: real): (bmi: real)
    requires heightCm != 0.0
    ensures bmi * (heightCm / 100.0) * (heightCm / 100.0) == weight
    ensures weight > 0.0 ==> bmi > 0.0
  {
    var heightM := heightCm / 100.0;
    weight / (heightM * heightM)
  }

  /** The category chain `< 18.5`, `< 25`, `< 30`, otherwise obese: each
      boundary value belongs to the higher category. */
  function Category(bmi: real): (c: BmiCategory)
    ensures c == Underweight <==> bmi < 18.5
    ensures c == NormalWeight <==> 18.5 <= bmi < 25.0
    ensures c == Overweight <==> 25.0 <= bmi < 30.0
    ensures c == Obese <==> 30.0 <= bmi
  {
    if bmi < 18.5 then Underweight
    else if bmi < 25.0 then NormalWeight
    else if bmi < 30.0 then Overweight
    else Obese
  }

  /** The position of a category in the order the chain tests them. */
  function Rank(c: BmiCategory): nat {
    match c
    case Underweight => 0
    case NormalWeight => 1
    case Overweight => 2
    case Obese => 3
  }

  /** A larger BMI never falls in an earlier category. */
  lemma CategoryMonotone(b1: real, b2: real)
    requires b1 <= b2
    ensures Rank(Category(b1)) <= Rank(Category(b2))
  {
  }

  /** 70 kg at 175 cm: BMI 22.86 (shown as 22.9), normal weight. */
  lemma BmiExample()
    ensures 22.85 < Bmi(70.0, 175.0) < 22.86
    ensures Category(Bmi(70.0, 175.0)) == NormalWeight
  {
  }

  // ---------------------------------------------------------------------
  // Drug dosage
  // ---------------------------------------------------------------------

  datatype DosageResult = DosageResult(totalDose: real, volume: real)

  /** Weight-based dose in mg and the volume in mL that delivers it at the
      given concentration in mg/mL. */
  function Dosage(weight: real, dose: real, concentration: real): (r: DosageResult)
    requires concentration != 0.0
    ensures r.totalDose == weight * dose
    ensures r.volume * concentration == r.totalDose
  {
    var totalDose := weight * dose;
    DosageResult(totalDose, totalDose / concentration)
  }

  /** 20 kg at 10 mg/kg from a 50 mg/mL solution: 200 mg in 4 mL. */
  lemma DosageExample()
    ensures Dosage(20.0, 10.0, 50.0) == DosageResult(200.0, 4.0)
  {
  }

  // ---------------------------------------------------------------------
  // Creatinine clearance (Cockcroft-Gault, 1976)
  // ---------------------------------------------------------------------

  /** The factor applied when the gender toggle reads "female". */
  const FemaleFactor := 0.85

  /** Clearance in mL/min from age in years, weight in kg and serum
      creatinine in mg/dL; scaled by 0.85 exactly when `gender` is "female". */
  function CreatinineClearance(age: real, weight: real, creatinine: real, gender: string): (clearance: real)
    requires creatinine != 0.0
    ensures gender != "female" ==> clearance * (72.0 * creatinine) == (140.0 - age) * weight
    ensures gender == "female" ==> clearance * (72.0 * creatinine) == FemaleFactor * ((140.0 - age) * weight)
  {
    var clearance := ((140.0 - age) * weight) / (72.0 * creatinine);
    if gender == "female" then clearance * FemaleFactor else clearance
  }

  /** The female value is 0.85 times the male value for the same age, weight
      and creatinine, and every gender string other than "female" gets the
      male value. */
  lemma FemaleIsScaledMale(age: real, weight: real, creatinine: real, gender: string)
    requires creatinine != 0.0
    ensures CreatinineClearance(age, weight, creatinine, "female")
            == FemaleFactor * CreatinineClearance(age, weight, creatinine, "male")
    ensures gender != "female" ==>
            CreatinineClearance(age, weight, creatinine, gender) == CreatinineClearance(age, weight, creatinine, "male")
  {
  }

  /** Age 65, 70 kg, creatinine 1.2 mg/dL: 60.76 mL/min (shown as 60.8);
      51.65 mL/min (shown as 51.6) for a woman. */
  lemma ClearanceExample()
    ensures 60.76 < CreatinineClearance(65.0, 70.0, 1.2, "male") < 60.77
    ensures 51.64 < CreatinineClearance(65.0, 70.0, 1.2, "female") < 51.65
  {
  }

  // ---------------------------------------------------------------------
  // IV flow rate
  // ---------------------------------------------------------------------

  datatype IvRate = IvRate(dropsPerMin: real, mlPerHour: real)

  /** Drip rate for `volume` mL over `time` hours with a giving set of
      `dropFactor` drops per mL. */
  function IvFlowRate(volume: real, time: real, dropFactor: real): (r: IvRate)
    requires time != 0.0
    ensures r.mlPerHour * time == volume
    ensures r.dropsPerMin * (time * 60.0) == volume * dropFactor
  {
    IvRate((volume * dropFactor) / (time * 60.0), volume / time)
  }

  /** The page's combined formula agrees with the two-step quick-reference
      formulas "mL/hr = volume / time" and "drops/min = mL/hr x drop factor / 60". */
  lemma IvMatchesQuickReference(volume: real, time: real, dropFactor: real)
    requires time != 0.0
    ensures IvFlowRate(volume, time, dropFactor).dropsPerMin
            == IvFlowRate(volume, time, dropFactor).mlPerHour * dropFactor / 60.0
  {
  }

  /** 1000 mL over 8 hours with a 15 drops/mL set: 31.25 drops/min, 125 mL/hr. */
  lemma IvExample()
    ensures IvFlowRate(1000.0, 8.0, 15.0) == IvRate(31.25, 125.0)
  {
  }

  // ---------------------------------------------------------------------
  // Body surface area (Mosteller, 1987)
  // ---------------------------------------------------------------------

  /** What `Math.sqrt` returns on non-negative arguments. */
  ghost predicate IsSquareRoot(sqrt: real -> real) {
    forall x :: x >= 0.0 ==> sqrt(x) >= 0.0 && sqrt(x) * sqrt(x) == x
  }

  /** Body surface area in m² from height in cm and weight in kg. */
  function BodySurfaceArea(sqrt: real -> real, height: real, weight: real): (bsa: real)
    requires IsSquareRoot(sqrt)
    requires height * weight >= 0.0
    ensures bsa >= 0.0 && bsa * bsa == height * weight / 3600.0
  {
    sqrt((height * weight) / 3600.0)
  }

  /** Squaring is strictly increasing on the non-negative reals. */
  lemma SquareGrows(a: real, b: real)
    requires a >= 0.0 && b >= 0.0
    ensures a > b ==> a * a > b * b
  {
    if a > b {
      var d := a - b;
      assert a * a == b * b + b * d + b * d + d * d;
      assert d * d > 0.0;
      assert b * d >= 0.0;
    }
  }

  /** Of two non-negative numbers, the one with the larger square is larger. */
  lemma RootOrder(a: real, b: real)
    requires a >= 0.0 && b >= 0.0 && a * a <= b * b
    ensures a <= b
  {
    SquareGrows(a, b);
  }

  /** Body surface area grows with height and with weight. */
  lemma BsaMonotone(sqrt: real -> real, h1: real, w1: real, h2: real, w2: real)
    requires IsSquareRoot(sqrt)
    requires 0.0 <= h1 <= h2 && 0.0 <= w1 <= w2
    ensures BodySurfaceArea(sqrt, h1, w1) <= BodySurfaceArea(sqrt, h2, w2)
  {
    assert h1 * w1 <= h2 * w1 <= h2 * w2;
    RootOrder(BodySurfaceArea(sqrt, h1, w1), BodySurfaceArea(sqrt, h2, w2));
  }

  /** 175 cm and 70 kg: 1.845 m² (shown as 1.84). */
  lemma BsaExample(sqrt: real -> real)
    requires IsSquareRoot(sqrt)
    ensures 1.84 < BodySurfaceArea(sqrt, 175.0, 70.0) < 1.85
  {
    var bsa := BodySurfaceArea(sqrt, 175.0, 70.0);
    assert bsa * bsa * 3600.0 == 12250.0;
    RootOrder(1.84, bsa);
    RootOrder(bsa, 1.85);
  }

  // ---------------------------------------------------------------------
  // The calculator forms
  // ---------------------------------------------------------------------

  /** The calculators that have a rendered form. */
  datatype Kind = BmiCalculator | DosageCalculator | CreatinineCalculator

  /** The number of numeric fields each form passes to `validateAndParse`,
      in order: weight, height / weight, dose, concentration / age, weight,
      creatinine. */
  function Arity(kind: Kind): nat {
    match kind
    case BmiCalculator => 2
    case DosageCalculator => 3
    case CreatinineCalculator => 3
  }

  /** The computed content of a form's `result` field (before `toFixed`). */
  datatype Reading =
    | BmiReading(bmi: real, category: BmiCategory)
    | DosageReading(dosage: DosageResult)
    | ClearanceReading(clearance: real)

  /** The divisor of each formula is non-zero. */
  predicate DenominatorsNonZero(kind: Kind, values: seq<real>)
    requires |values| == Arity(kind)
  {
    match kind
    case BmiCalculator => values[1] != 0.0
    case DosageCalculator => values[2] != 0.0
    case CreatinineCalculator => values[2] != 0.0
  }

  /** The formula each form runs on its parsed fields. */
  function Evaluate(kind: Kind, values: seq<real>, gender: string): Reading
    requires |values| == Arity(kind) && DenominatorsNonZero(kind, values)
  {
    match kind
    case BmiCalculator =>
      var bmi := Bmi(values[0], values[1]);
      BmiReading(bmi, Category(bmi))
    case DosageCalculator => DosageReading(Dosage(values[0], values[1], values[2]))
    case CreatinineCalculator => ClearanceReading(CreatinineClearance(values[0], values[1], values[2], gender))
  }

  /** The state record of one calculator form: the raw numeric fields, the
      gender toggle (read only by the creatinine form), and `result` and
      `error` (`None` and `""` stand for the empty string). */
  class CalculatorForm {
    const kind: Kind
    var inputs: seq<string>
    var gender: string
    var result: Option<Reading>
    var error: string

    ghost predicate Valid()
      reads this
    {
      |inputs| == Arity(kind)
    }

    /** The `useState` initial record: empty fields, gender "male", no
        result and no error. */
    constructor(kind: Kind)
      ensures Valid() && this.kind == kind
      ensures forall i :: 0 <= i < |inputs| ==> inputs[i] == ""
      ensures gender == "male" && result == None && error == ""
    {
      this.kind := kind;
      inputs := seq(Arity(kind), _ => "");
      gender := "male";
      result := None;
      error := "";
    }

    /** An input's `onChange`: store the new text, clear result and error. */
    method Edit(field: nat, text: string)
      requires Valid() && field < |inputs|
      modifies this
      ensures Valid()
      ensures inputs == old(inputs)[field := text]
      ensures result == None && error == ""
      ensures gender == old(gender)
    {
      inputs := inputs[field := text];
      result := None;
      error := "";
    }

    /** The Male / Female buttons of the creatinine form: only `gender` changes. */
    method SetGender(g: string)
      requires Valid() && kind == CreatinineCalculator
      modifies this
      ensures Valid()
      ensures gender == g
      ensures inputs == old(inputs) && result == old(result) && error == old(error)
    {
      gender := g;
    }

    /** The form's submit handler. On a validation failure only `error`
        changes; otherwise `result` holds the formula's value and `error` is
        cleared. */
    method Submit(parse: string -> Option<real>)
      requires Valid()
      requires ValidateAndParse(parse, inputs).Some? ==>
               DenominatorsNonZero(kind, ValidateAndParse(parse, inputs).value)
      modifies this
      ensures Valid()
      ensures inputs == old(inputs) && gender == old(gender)
      ensures ValidateAndParse(parse, inputs).None? ==>
              error == ValidationMessage && result == old(result)
      ensures ValidateAndParse(parse, inputs).Some? ==>
              error == "" && result == Some(Evaluate(kind, ValidateAndParse(parse, inputs).value, gender))
    {
      var values := ValidateAndParse(parse, inputs);
      match values
      case None =>
        error := ValidationMessage;
      case Some(numbers) =>
        result := Some(Evaluate(kind, numbers, gender));
        error := "";
    }
  }

  /** A client of the BMI form: with a non-numeric weight the submit
      reports the validation error and computes no result. */
  method RejectsNonNumericWeight(parse: string -> Option<real>) returns (error: string, result: Option<Reading>)
    requires parse("abc") == None
    ensures error == ValidationMessage && result == None
  {
    var form := new CalculatorForm(BmiCalculator);
    form.Edit(0, "abc");
    form.Edit(1, "175");
    form.Submit(parse);
    error, result := form.error, form.result;
  }
}
