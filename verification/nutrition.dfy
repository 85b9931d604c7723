/**
 * The calorie calculator: basal metabolic rate (Mifflin-St Jeor), the activity
 * factor, the goal adjustment, and the split of the calorie goal into protein,
 * fat and carbohydrate grams.
 */
module Nutrition {
  import opened Basics

  /** Mifflin-St Jeor without the sex-specific constant. */
  function BaseMetabolism(age: int, weight: int, height: int): real
  {
    10.0 * weight as real + 6.25 * height as real - 5.0 * age as real
  }

  /**
   * calculateBMR: +5 for 'männlich', -161 for 'weiblich'; any other value
   * ('divers') takes the mean of the two formulas.
   */
  function CalculateBMR(gender: string, age: int, weight: int, height: int): (bmr: real)
    ensures gender == "männlich" ==> bmr == BaseMetabolism(age, weight, height) + 5.0
    ensures gender == "weiblich" ==> bmr == BaseMetabolism(age, weight, height) - 161.0
    ensures gender != "männlich" && gender != "weiblich" ==> bmr == BaseMetabolism(age, weight, height) - 78.0
  {
    if gender == "männlich" then 10.0 * weight as real + 6.25 * height as real - 5.0 * age as real + 5.0
    else if gender == "weiblich" then 10.0 * weight as real + 6.25 * height as real - 5.0 * age as real - 161.0
    else
      var male := 10.0 * weight as real + 6.25 * height as real - 5.0 * age as real + 5.0;
      var female := 10.0 * weight as real + 6.25 * height as real - 5.0 * age as real - 161.0;
      (male + female) / 2.0
  }

  /** The 'divers' value lies between the two sex-specific ones, and those differ by 166 kcal. */
  lemma BMROrdering(other: string, age: int, weight: int, height: int)
    requires other != "männlich" && other != "weiblich"
    ensures CalculateBMR("weiblich", age, weight, height) < CalculateBMR(other, age, weight, height)
              < CalculateBMR("männlich", age, weight, height)
    ensures CalculateBMR("männlich", age, weight, height) - CalculateBMR("weiblich", age, weight, height) == 166.0
  {
  }

  /** getActivityMultiplier: the table value, 1.55 (moderate) for an unknown level. */
  function ActivityMultiplier(activity: string): (m: real)
    ensures 1.2 <= m <= 1.725
    ensures activity != "sedentary" && activity != "light" && activity != "very" ==> m == 1.55
  {
    if activity == "sedentary" then 1.2
    else if activity == "light" then 1.375
    else if activity == "moderate" then 1.55
    else if activity == "very" then 1.725
    else 1.55
  }

  /** The daily calorie goal with the protein factor and the fat share it implies. */
  datatype Macros = Macros(calories: int, proteinPerKg: real, fatPercent: real)

  /**
   * calculateMacros: +12 % calories for 'bulk', -15 % for 'cut', the rounded
   * TDEE for any other goal (keeping the weight).
   */
  function CalculateMacros(tdee: real, goal: string): (m: Macros)
    ensures 1.8 <= m.proteinPerKg <= 2.2
    ensures m.fatPercent == (if goal == "bulk" || goal == "cut" then 0.25 else 0.30)
    ensures (goal == "bulk" <==> m.proteinPerKg == 2.0) && (goal == "cut" <==> m.proteinPerKg == 2.2)
    ensures goal != "bulk" && goal != "cut" ==> tdee - 0.5 < m.calories as real <= tdee + 0.5
  {
    if goal == "bulk" then Macros(Round(tdee * 1.12), 2.0, 0.25)
    else if goal == "cut" then Macros(Round(tdee * 0.85), 2.2, 0.25)
    else Macros(Round(tdee), 1.8, 0.30)
  }

  /** For a non-negative TDEE the cut goal is never above maintenance, and maintenance never above the bulk goal. */
  lemma {:induction false} GoalCaloriesOrdered(tdee: real, other: string)
    requires tdee >= 0.0
    requires other != "bulk" && other != "cut"
    ensures CalculateMacros(tdee, "cut").calories <= CalculateMacros(tdee, other).calories
              <= CalculateMacros(tdee, "bulk").calories
  {
    RoundMonotone(tdee * 0.85, tdee);
    RoundMonotone(tdee, tdee * 1.12);
  }

  datatype MacroGrams = MacroGrams(protein: int, fat: int, carbs: int)

  /**
   * The gram split of handleCalorieCalculator: protein from the body weight,
   * fat from its share of the calories (9 kcal/g), carbohydrates from what is
   * left (4 kcal/g). The grams add back up to the calorie goal, off by at most
   * the 2 kcal that rounding the carbohydrates loses.
   */
  function MacroSplit(calories: int, weight: int, m: Macros): (g: MacroGrams)
    ensures weight >= 0 && m.proteinPerKg >= 0.0 ==> g.protein >= 0
    ensures calories >= 0 && m.fatPercent >= 0.0 ==> g.fat >= 0
    ensures -2 < 4 * g.protein + 9 * g.fat + 4 * g.carbs - calories <= 2
  {
    var protein := Round(weight as real * m.proteinPerKg);
    var fat := Round((calories as real * m.fatPercent) / 9.0);
    var carbs := Round((calories - protein * 4 - fat * 9) as real / 4.0);
    MacroGrams(protein, fat, carbs)
  }
}
