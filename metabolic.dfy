/** The metabolic calculator of src/App.jsx: basal metabolic rate by a
    Mifflin-St Jeor style equation, an activity multiplier, maintenance
    calories and the goal-adjusted daily target. */
module Metabolic {
  import opened Numeric

  /** The user's profile. Enumerated settings are free text in the program:
      any value outside the known ones takes the documented fallback. */
  datatype Profile = Profile(
    name: string,
    age: real,
    gender: string,
    heightCm: real,
    weightKg: real,
    activityLevel: string,
    goal: string,
    dailyProteinTarget: real)

  /** The profile used before the user has saved one. */
  const DefaultProfile := Profile("Guest", 28.0, "other", 170.0, 70.0, "moderate", "maintain", 120.0)

  /** The activity levels the profile form offers. */
  const KnownLevels: set<string> := {"sedentary", "light", "moderate", "active", "very-active"}

  /** The sex-dependent constant of the equation; any value other than male
      or female gets the in-between -78. */
  function GenderOffset(gender: string): (r: real)
    ensures r == 5.0 <==> gender == "male"
    ensures r == -161.0 <==> gender == "female"
    ensures r == 5.0 || r == -161.0 || r == -78.0
  {
    if gender == "male" then 5.0 else if gender == "female" then -161.0 else -78.0
  }

  /** The unrounded basal metabolic rate. */
  function RawBmr(p: Profile): real
  {
    10.0 * p.weightKg + 25.0 / 4.0 * p.heightCm - 5.0 * p.age + GenderOffset(p.gender)
  }

  /** The equation grows with weight and height, falls with age, and puts
      male above any other value and that above female, other fields
      equal. */
  lemma RawBmrMonotone(p: Profile, q: Profile)
    requires p.weightKg <= q.weightKg && p.heightCm <= q.heightCm && p.age >= q.age
    requires p.gender == q.gender
    ensures RawBmr(p) <= RawBmr(q)
    ensures RawBmr(p.(gender := "female")) < RawBmr(p.(gender := "other")) < RawBmr(p.(gender := "male"))
    ensures RawBmr(p.(gender := "male")) - RawBmr(p.(gender := "female")) == 166.0
  {
  }

  /** `bmr`: the equation's value rounded to the nearest whole kcal. */
  function Bmr(p: Profile): (r: int)
    ensures p.gender == "male" ==>
      10.0 * p.weightKg + 25.0 / 4.0 * p.heightCm - 5.0 * p.age + 5.0 - 1.0 / 2.0 < r as real
      <= 10.0 * p.weightKg + 25.0 / 4.0 * p.heightCm - 5.0 * p.age + 5.0 + 1.0 / 2.0
    ensures p.gender == "female" ==>
      10.0 * p.weightKg + 25.0 / 4.0 * p.heightCm - 5.0 * p.age - 161.0 - 1.0 / 2.0 < r as real
      <= 10.0 * p.weightKg + 25.0 / 4.0 * p.heightCm - 5.0 * p.age - 161.0 + 1.0 / 2.0
    ensures p.gender != "male" && p.gender != "female" ==>
      10.0 * p.weightKg + 25.0 / 4.0 * p.heightCm - 5.0 * p.age - 78.0 - 1.0 / 2.0 < r as real
      <= 10.0 * p.weightKg + 25.0 / 4.0 * p.heightCm - 5.0 * p.age - 78.0 + 1.0 / 2.0
  {
    Round(RawBmr(p))
  }

  /** `activityFactor`: one of the five multipliers, 1.55 for a level the
      form does not offer. */
  function ActivityFactor(level: string): (r: real)
    ensures r in {6.0 / 5.0, 11.0 / 8.0, 31.0 / 20.0, 69.0 / 40.0, 19.0 / 10.0}
    ensures level !in KnownLevels ==> r == 31.0 / 20.0
  {
    match level
    case "sedentary" => 6.0 / 5.0
    case "light" => 11.0 / 8.0
    case "moderate" => 31.0 / 20.0
    case "active" => 69.0 / 40.0
    case "very-active" => 19.0 / 10.0
    case _ => 31.0 / 20.0
  }

  /** The multipliers grow with the activity level. */
  lemma ActivityFactorOrdered()
    ensures ActivityFactor("sedentary") < ActivityFactor("light") < ActivityFactor("moderate")
            < ActivityFactor("active") < ActivityFactor("very-active")
  {
  }

  /** `maintenance`: the basal rate times the multiplier, rounded. */
  function Maintenance(bmr: int, factor: real): (r: int)
    ensures bmr as real * factor - 1.0 / 2.0 < r as real <= bmr as real * factor + 1.0 / 2.0
  {
    Round(bmr as real * factor)
  }

  /** For a non-negative basal rate, a more active level never lowers
      maintenance. */
  lemma MaintenanceMonotone(bmr: int, f1: real, f2: real)
    requires 0 <= bmr && f1 <= f2
    ensures Maintenance(bmr, f1) <= Maintenance(bmr, f2)
  {
    assert bmr as real * f1 <= bmr as real * f2;
    RoundMonotone(bmr as real * f1, bmr as real * f2);
  }

  /** `targetCalories`: 400 below maintenance to lose, 300 above to gain,
      maintenance for "maintain" and anything else. */
  function TargetCalories(maintenance: int, goal: string): (r: int)
    ensures r - maintenance in {-400, 0, 300}
    ensures r < maintenance <==> goal == "lose"
    ensures r > maintenance <==> goal == "gain"
  {
    if goal == "lose" then maintenance - 400
    else if goal == "gain" then maintenance + 300
    else maintenance
  }

  /** The three derived figures the profile page shows. */
  datatype Targets = Targets(bmr: int, maintenance: int, target: int)

  /** The whole calculation for one profile. */
  function ComputeTargets(p: Profile): (t: Targets)
    ensures t.bmr == Bmr(p)
    ensures t.maintenance == Maintenance(t.bmr, ActivityFactor(p.activityLevel))
    ensures t.target == TargetCalories(t.maintenance, p.goal)
    ensures t.maintenance - 400 <= t.target <= t.maintenance + 300
  {
    var bmr := Bmr(p);
    var maintenance := Maintenance(bmr, ActivityFactor(p.activityLevel));
    Targets(bmr, maintenance, TargetCalories(maintenance, p.goal))
  }

  /** The default profile: the equation gives 1544.5, which rounds up to
      1545; 1545 * 1.55 = 2394.75 rounds to 2395; "maintain" keeps it. */
  lemma DefaultProfileTargets()
    ensures RawBmr(DefaultProfile) == 1544.5
    ensures ComputeTargets(DefaultProfile) == Targets(1545, 2395, 2395)
  {
    RoundUnique(1544.5, 1545);
    RoundUnique(1545.0 * (31.0 / 20.0), 2395);
  }

  /** The default profile with the other two goals. */
  lemma DefaultProfileGoals()
    ensures ComputeTargets(DefaultProfile.(goal := "lose")).target == 1995
    ensures ComputeTargets(DefaultProfile.(goal := "gain")).target == 2695
  {
    RoundUnique(1544.5, 1545);
    RoundUnique(1545.0 * (31.0 / 20.0), 2395);
  }

  /** For one profile, losing targets less than maintaining, which targets
      less than gaining. */
  lemma GoalsOrdered(p: Profile)
    ensures ComputeTargets(p.(goal := "lose")).target < ComputeTargets(p.(goal := "maintain")).target
            < ComputeTargets(p.(goal := "gain")).target
  {
  }
}
