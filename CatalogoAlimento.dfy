/** CatalogoAlimento: a catalog entry, the nutrients of a food per 100 g. */
module CatalogoAlimento {
  import opened Wrappers
  import opened Modelos
  import opened RoundingUtils
  import JavaMath

  /** The body of a catalog document; its id is kept by the store. */
  datatype CatalogoAlimento = CatalogoAlimento(
    nombre: string,
    caloriasPor100g: real,
    proteinasPor100g: real,
    carbohidratosPor100g: real,
    grasasPor100g: real)

  /** The field the catalog is keyed on. */
  function Nombre(c: CatalogoAlimento): string { c.nombre }

  /** 100.0 / gramos: the factor that rescales a sample to 100 g. */
  function Factor(gramos: int): real
    requires gramos != 0
  {
    100.0 / (gramos as real)
  }

  /** oneDecimal(x * factor): one amount of the sample, per 100 g. */
  function Rescale(x: real, gramos: int): (x100: real)
    requires gramos != 0
    ensures Per100g(x100, x, gramos)
  {
    OneDecimal(x * Factor(gramos))
  }

  /** x100 is x for the given grams, rescaled to 100 g and kept to one decimal. */
  predicate Per100g(x100: real, x: real, gramos: int)
    requires gramos != 0
  {
    Abs(x100 - x * Factor(gramos)) <= 0.05 && JavaMath.IsWhole(x100 * 10.0)
  }

  /**
   * from(a): every amount rescaled by 100 / gramos and rounded to one decimal,
   * the name copied. With gramos == 0 the factor is infinite and the
   * rounding rejects the value.
   */
  function From(a: Alimento): (r: Result<CatalogoAlimento>)
    ensures r.Failure? <==> a.gramos == 0
    ensures r.Failure? ==> r.error == NonFiniteNumber
    ensures r.Success? ==> && r.value.nombre == a.nombre
                           && Per100g(r.value.caloriasPor100g, a.calorias, a.gramos)
                           && Per100g(r.value.proteinasPor100g, a.proteinasG, a.gramos)
                           && Per100g(r.value.carbohidratosPor100g, a.carbohidratosG, a.gramos)
                           && Per100g(r.value.grasasPor100g, a.grasasG, a.gramos)
  {
    if a.gramos == 0 then Failure(NonFiniteNumber)
    else
      Success(CatalogoAlimento(
        a.nombre,
        Rescale(a.calorias, a.gramos),
        Rescale(a.proteinasG, a.gramos),
        Rescale(a.carbohidratosG, a.gramos),
        Rescale(a.grasasG, a.gramos)))
  }

  /** A 100 g sample is only rounded to one decimal. */
  lemma FromHundredGrams(a: Alimento)
    requires a.gramos == 100
    ensures From(a) == Success(CatalogoAlimento(a.nombre, OneDecimal(a.calorias), OneDecimal(a.proteinasG),
                                                OneDecimal(a.carbohidratosG), OneDecimal(a.grasasG)))
  {
    RescaleHundred(a.calorias);
    RescaleHundred(a.proteinasG);
    RescaleHundred(a.carbohidratosG);
    RescaleHundred(a.grasasG);
  }

  lemma RescaleHundred(x: real)
    ensures Rescale(x, 100) == OneDecimal(x)
  {
    assert Factor(100) == 1.0;
  }

  /** A rescaled amount, taken back to the sample's grams, is off by at most 0.05 per 100 g. */
  lemma ScalesBack(x100: real, x: real, gramos: int)
    requires gramos > 0 && Per100g(x100, x, gramos)
    ensures Abs(x100 * (gramos as real) / 100.0 - x) <= 0.05 * (gramos as real) / 100.0
  {
    var g, f := gramos as real, Factor(gramos);
    assert f * g == 100.0;
    ScaledError(x100, x, f, g);
  }

  lemma ScaledError(x100: real, x: real, f: real, g: real)
    requires g > 0.0 && f * g == 100.0 && Abs(x100 - x * f) <= 0.05
    ensures Abs(x100 * g / 100.0 - x) <= 0.05 * g / 100.0
  {
    var e := x100 - x * f;
    assert x100 * g / 100.0 - x == e * g / 100.0 by {
      assert x100 * g == e * g + x * (f * g);
    }
    assert -0.05 * g <= e * g <= 0.05 * g;
  }
}
