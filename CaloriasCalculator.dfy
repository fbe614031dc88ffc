/** CaloriasCalculator: energy of a food from its macronutrients, 4/4/9 kcal per gram. */
module CaloriasCalculator {

  const KCAL_PROTEINA: real := 4.0
  const KCAL_CARBOHIDRATO: real := 4.0
  const KCAL_GRASA: real := 9.0

  /** calcularCalorias: kilocalories of the given grams of protein, carbohydrate and fat. */
  function CalcularCalorias(proteinas: real, carbohidratos: real, grasas: real): (kcal: real)
    ensures proteinas >= 0.0 && carbohidratos >= 0.0 && grasas >= 0.0 ==> kcal >= 0.0
    ensures proteinas == 0.0 && carbohidratos == 0.0 && grasas == 0.0 ==> kcal == 0.0
  {
    proteinas * KCAL_PROTEINA + carbohidratos * KCAL_CARBOHIDRATO + grasas * KCAL_GRASA
  }

  /** Energy is additive: two servings together have the energy of both. */
  lemma CaloriasAdditive(p1: real, c1: real, f1: real, p2: real, c2: real, f2: real)
    ensures CalcularCalorias(p1 + p2, c1 + c2, f1 + f2)
         == CalcularCalorias(p1, c1, f1) + CalcularCalorias(p2, c2, f2)
  {
  }

  /** Each gram of protein or carbohydrate adds 4 kcal, each gram of fat 9 kcal. */
  lemma CaloriasPerGram(p: real, c: real, f: real)
    ensures CalcularCalorias(p + 1.0, c, f) == CalcularCalorias(p, c, f) + 4.0
    ensures CalcularCalorias(p, c + 1.0, f) == CalcularCalorias(p, c, f) + 4.0
    ensures CalcularCalorias(p, c, f + 1.0) == CalcularCalorias(p, c, f) + 9.0
  {
  }
}
