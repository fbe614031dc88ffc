/**
 * MetabolismoService: the goal calculator. Mifflin-St Jeor basal metabolic
 * rate (BMR), total daily energy expenditure TDEE = BMR x PAL, target
 * calories = TDEE x objective factor, and a 30/25/45 split of the target
 * into grams of protein, fat and carbohydrate.
 */
module MetabolismoService {
  import opened Wrappers
  import Text
  import opened Modelos
  import opened NivelActividad
  import opened ObjetivoNutricional
  import CaloriasCalculator

  /** "F".equalsIgnoreCase(sexo): only "F" and "f" select the female formula; null does not. */
  predicate IsFemale(sexo: Option<string>) {
    sexo.Some? && Text.EqualsIgnoreCase("F", sexo.value)
  }

  /** calcularBmr(pesoKg, alturaCm, edad, sexo), kcal per day. */
  function CalcularBmr(pesoKg: real, alturaCm: int, edad: int, sexo: Option<string>): (bmr: real)
    ensures bmr + (if IsFemale(sexo) then 161.0 else -5.0)
         == 10.0 * pesoKg + 6.25 * (alturaCm as real) - 5.0 * (edad as real)
  {
    if IsFemale(sexo) then 10.0 * pesoKg + 6.25 * (alturaCm as real) - 5.0 * (edad as real) - 161.0
    else 10.0 * pesoKg + 6.25 * (alturaCm as real) - 5.0 * (edad as real) + 5.0
  }

  /** calcularTdee(bmr, nivel) = bmr x PAL: above the BMR and at most 2.2 times it when the BMR is positive. */
  function CalcularTdee(bmr: real, nivel: NivelActividad): (tdee: real)
    ensures bmr > 0.0 ==> bmr < tdee <= 2.2 * bmr
    ensures bmr == 0.0 ==> tdee == 0.0
  {
    bmr * Pal(nivel)
  }

  /** calcularCaloriasObjetivo(tdee, obj) = tdee x factor: below the TDEE on a cut, above it on a bulk. */
  function CalcularCaloriasObjetivo(tdee: real, obj: ObjetivoNutricional): (cal: real)
    ensures obj == MANTENER ==> cal == tdee
    ensures tdee > 0.0 && IsCut(obj) ==> 0.0 < cal < tdee
    ensures tdee > 0.0 && IsBulk(obj) ==> cal > tdee
  {
    tdee * Factor(obj)
  }

  /**
   * calcularMacrosObjetivo(C): 30 % of the energy as protein, 25 % as fat and
   * the rest, 45 %, as carbohydrate, converted at 4/9/4 kcal per gram.
   */
  function CalcularMacrosObjetivo(caloriasObjetivo: real): (m: Macros)
    ensures 4.0 * m.proteinasG == 0.30 * caloriasObjetivo
    ensures 9.0 * m.grasasG == 0.25 * caloriasObjetivo
    ensures 4.0 * m.carbohidratosG == 0.45 * caloriasObjetivo
    ensures CaloriasCalculator.CalcularCalorias(m.proteinasG, m.carbohidratosG, m.grasasG) == caloriasObjetivo
    ensures caloriasObjetivo >= 0.0 ==> m.proteinasG >= 0.0 && m.carbohidratosG >= 0.0 && m.grasasG >= 0.0
  {
    var protKcal := caloriasObjetivo * 0.30;
    var grasaKcal := caloriasObjetivo * 0.25;
    var carbKcal := caloriasObjetivo - protKcal - grasaKcal;
    Macros(protKcal / 4.0, carbKcal / 4.0, grasaKcal / 9.0)
  }

  /** The whole chain, from body metrics to target calories. */
  function CaloriasObjetivoDe(pesoKg: real, alturaCm: int, edad: int, sexo: Option<string>,
                              nivel: NivelActividad, obj: ObjetivoNutricional): real
  {
    CalcularCaloriasObjetivo(CalcularTdee(CalcularBmr(pesoKg, alturaCm, edad, sexo), nivel), obj)
  }

  /** For the same metrics, the female BMR is exactly 166 kcal below the male BMR. */
  lemma FemaleBmrIs166Below(pesoKg: real, alturaCm: int, edad: int)
    ensures CalcularBmr(pesoKg, alturaCm, edad, Some("F")) == CalcularBmr(pesoKg, alturaCm, edad, None) - 166.0
    ensures CalcularBmr(pesoKg, alturaCm, edad, Some("f")) == CalcularBmr(pesoKg, alturaCm, edad, Some("F"))
    ensures CalcularBmr(pesoKg, alturaCm, edad, Some("M")) == CalcularBmr(pesoKg, alturaCm, edad, None)
  {
    assert IsFemale(Some("F")) && IsFemale(Some("f"));
    assert !IsFemale(Some("M")) by {
      assert Text.Lower("M")[0] == 'm' && Text.Lower("F")[0] == 'f';
    }
  }

  /** Each extra kilogram adds 10 kcal, each extra centimetre 6.25, each extra year takes 5 away. */
  lemma BmrSensitivity(pesoKg: real, alturaCm: int, edad: int, sexo: Option<string>)
    ensures CalcularBmr(pesoKg + 1.0, alturaCm, edad, sexo) == CalcularBmr(pesoKg, alturaCm, edad, sexo) + 10.0
    ensures CalcularBmr(pesoKg, alturaCm + 1, edad, sexo) == CalcularBmr(pesoKg, alturaCm, edad, sexo) + 6.25
    ensures CalcularBmr(pesoKg, alturaCm, edad + 1, sexo) == CalcularBmr(pesoKg, alturaCm, edad, sexo) - 5.0
  {
  }

  /** Maintenance keeps the target at the TDEE; a deeper cut or a larger bulk moves it monotonically. */
  lemma ObjetivoOrdering(tdee: real)
    requires tdee > 0.0
    ensures CalcularCaloriasObjetivo(tdee, MANTENER) == tdee
    ensures CalcularCaloriasObjetivo(tdee, CUT_AGRESIVO) < CalcularCaloriasObjetivo(tdee, CUT_MEDIO)
                                                      < CalcularCaloriasObjetivo(tdee, CUT_LIGERO) < tdee
    ensures tdee < CalcularCaloriasObjetivo(tdee, BULK_CONSERVADOR) < CalcularCaloriasObjetivo(tdee, BULK_ESTANDAR)
                 < CalcularCaloriasObjetivo(tdee, BULK_AGRESIVO)
  {
    FactorOrdering();
  }

  /** A more active level gives a higher TDEE for the same positive BMR. */
  lemma TdeeMonotoneInLevel(bmr: real, i: nat, j: nat)
    requires bmr > 0.0 && i < j < |NIVELES|
    ensures CalcularTdee(bmr, NIVELES[i]) < CalcularTdee(bmr, NIVELES[j])
  {
    PalStrictlyIncreasing();
  }

  /** The macro split scales with the target: twice the calories, twice every macro. */
  lemma MacrosLinear(c1: real, c2: real)
    ensures CalcularMacrosObjetivo(c1 + c2).proteinasG
         == CalcularMacrosObjetivo(c1).proteinasG + CalcularMacrosObjetivo(c2).proteinasG
    ensures CalcularMacrosObjetivo(c1 + c2).carbohidratosG
         == CalcularMacrosObjetivo(c1).carbohidratosG + CalcularMacrosObjetivo(c2).carbohidratosG
    ensures CalcularMacrosObjetivo(c1 + c2).grasasG
         == CalcularMacrosObjetivo(c1).grasasG + CalcularMacrosObjetivo(c2).grasasG
  {
  }

  /**
   * A witness for the chain CalcularBmr, CalcularTdee, CalcularCaloriasObjetivo
   * and CalcularMacrosObjetivo: a man of 80 kg, 180 cm and 30 years,
   * moderately active, maintaining.
   */
  lemma WorkedExample()
    ensures CalcularBmr(80.0, 180, 30, Some("M")) == 1780.0
    ensures CaloriasObjetivoDe(80.0, 180, 30, Some("M"), MODERADA, MANTENER) == 2759.0
    ensures CalcularMacrosObjetivo(2759.0) == Macros(206.925, 310.3875, 689.75 / 9.0)
  {
    FemaleBmrIs166Below(80.0, 180, 30);
  }
}
