/**
 * Dia: one nutritional day of a user, with its effective date, the start of
 * day it was opened with, four consumption accumulators and the counter of
 * advice requests.
 */
module Dia {
  import opened Modelos

  /** The state of a day, as stored in the user's document. */
  datatype DiaDoc = DiaDoc(
    fecha: Date,
    horaInicioDia: TimeOfDay,
    proteinasConsumidas: real,
    carbohidratosConsumidos: real,
    grasasConsumidas: real,
    caloriasConsumidas: real,
    consejosGenerados: int)

  /** new Dia() with its date and start of day set: nothing consumed, no advice given. */
  function NuevoDia(fecha: Date, inicio: TimeOfDay): (d: DiaDoc)
    ensures d.fecha == fecha && d.horaInicioDia == inicio
    ensures d.proteinasConsumidas == d.carbohidratosConsumidos == d.grasasConsumidas == d.caloriasConsumidas == 0.0
    ensures d.consejosGenerados == 0
  {
    DiaDoc(fecha, inicio, 0.0, 0.0, 0.0, 0.0, 0)
  }

  /** agregarMacronutrientes on the state of a day. */
  function Agregar(d: DiaDoc, proteinas: real, carbohidratos: real, grasas: real, calorias: real): DiaDoc {
    d.(proteinasConsumidas := d.proteinasConsumidas + proteinas,
       carbohidratosConsumidos := d.carbohidratosConsumidos + carbohidratos,
       grasasConsumidas := d.grasasConsumidas + grasas,
       caloriasConsumidas := d.caloriasConsumidas + calorias)
  }

  /** esNuevoDia(): the clock has passed the start of day (strictly). */
  predicate NuevoCiclo(d: DiaDoc, ahora: TimeOfDay) {
    ahora > d.horaInicioDia
  }

  /** resetearDia() on the state of a day. */
  function Resetear(d: DiaDoc, hoy: Date, ahora: TimeOfDay): DiaDoc {
    if NuevoCiclo(d, ahora) then
      d.(proteinasConsumidas := 0.0, carbohidratosConsumidos := 0.0, grasasConsumidas := 0.0,
         caloriasConsumidas := 0.0, fecha := hoy)
    else d
  }

  /**
   * agregarMacronutrientes adds each amount to its own accumulator; the date,
   * the start of day and the advice counter do not change.
   */
  lemma AgregarAdds(d: DiaDoc, p: real, c: real, g: real, k: real)
    ensures var e := Agregar(d, p, c, g, k);
      && e.proteinasConsumidas - d.proteinasConsumidas == p
      && e.carbohidratosConsumidos - d.carbohidratosConsumidos == c
      && e.grasasConsumidas - d.grasasConsumidas == g
      && e.caloriasConsumidas - d.caloriasConsumidas == k
      && e.fecha == d.fecha && e.horaInicioDia == d.horaInicioDia && e.consejosGenerados == d.consejosGenerados
  {
  }

  /** Non-negative amounts never make an accumulator go down. */
  lemma AgregarMonotone(d: DiaDoc, p: real, c: real, g: real, k: real)
    requires p >= 0.0 && c >= 0.0 && g >= 0.0 && k >= 0.0
    ensures var e := Agregar(d, p, c, g, k);
      && e.proteinasConsumidas >= d.proteinasConsumidas
      && e.carbohidratosConsumidos >= d.carbohidratosConsumidos
      && e.grasasConsumidas >= d.grasasConsumidas
      && e.caloriasConsumidas >= d.caloriasConsumidas
  {
  }

  /** Two additions in either order, or at once, give the same day. */
  lemma AgregarCombines(d: DiaDoc, p1: real, c1: real, g1: real, k1: real, p2: real, c2: real, g2: real, k2: real)
    ensures Agregar(Agregar(d, p1, c1, g1, k1), p2, c2, g2, k2) == Agregar(Agregar(d, p2, c2, g2, k2), p1, c1, g1, k1)
    ensures Agregar(Agregar(d, p1, c1, g1, k1), p2, c2, g2, k2) == Agregar(d, p1 + p2, c1 + c2, g1 + g2, k1 + k2)
  {
  }

  /**
   * resetearDia: once the clock is past the start of day, the four
   * accumulators are zeroed and the date becomes today while the advice
   * counter stays; otherwise nothing changes. Resetting twice is resetting once.
   */
  lemma ResetearOutcome(d: DiaDoc, hoy: Date, ahora: TimeOfDay)
    ensures var e := Resetear(d, hoy, ahora);
      && (ahora > d.horaInicioDia ==>
            e == NuevoDia(hoy, d.horaInicioDia).(consejosGenerados := d.consejosGenerados))
      && (ahora <= d.horaInicioDia ==> e == d)
      && Resetear(e, hoy, ahora) == e
  {
  }

  class Dia {
    var fecha: Date
    var horaInicioDia: TimeOfDay
    var proteinasConsumidas: real
    var carbohidratosConsumidos: real
    var grasasConsumidas: real
    var caloriasConsumidas: real
    var consejosGenerados: int

    /** The state of this day as a value. */
    function Doc(): DiaDoc
      reads this
    {
      DiaDoc(fecha, horaInicioDia, proteinasConsumidas, carbohidratosConsumidos, grasasConsumidas,
             caloriasConsumidas, consejosGenerados)
    }

    /** new Dia(), setFecha(fecha), setHoraInicioDia(inicio). */
    constructor (fecha: Date, inicio: TimeOfDay)
      ensures Doc() == NuevoDia(fecha, inicio)
    {
      this.fecha := fecha;
      this.horaInicioDia := inicio;
      proteinasConsumidas := 0.0;
      carbohidratosConsumidos := 0.0;
      grasasConsumidas := 0.0;
      caloriasConsumidas := 0.0;
      consejosGenerados := 0;
    }

    /** A day read back from a stored document. */
    constructor FromDoc(d: DiaDoc)
      ensures Doc() == d
    {
      fecha := d.fecha;
      horaInicioDia := d.horaInicioDia;
      proteinasConsumidas := d.proteinasConsumidas;
      carbohidratosConsumidos := d.carbohidratosConsumidos;
      grasasConsumidas := d.grasasConsumidas;
      caloriasConsumidas := d.caloriasConsumidas;
      consejosGenerados := d.consejosGenerados;
    }

    /** agregarMacronutrientes(proteinas, carbohidratos, grasas, calorias). */
    method AgregarMacronutrientes(proteinas: real, carbohidratos: real, grasas: real, calorias: real)
      modifies this
      ensures Doc() == Agregar(old(Doc()), proteinas, carbohidratos, grasas, calorias)
    {
      proteinasConsumidas := proteinasConsumidas + proteinas;
      carbohidratosConsumidos := carbohidratosConsumidos + carbohidratos;
      grasasConsumidas := grasasConsumidas + grasas;
      caloriasConsumidas := caloriasConsumidas + calorias;
    }

    /** esNuevoDia(), the clock passed in. */
    function EsNuevoDia(ahora: TimeOfDay): (nuevo: bool)
      reads this
      ensures nuevo <==> NuevoCiclo(Doc(), ahora)
    {
      ahora > horaInicioDia
    }

    /** resetearDia(), the clock passed in. */
    method ResetearDia(hoy: Date, ahora: TimeOfDay)
      modifies this
      ensures Doc() == Resetear(old(Doc()), hoy, ahora)
    {
      if EsNuevoDia(ahora) {
        proteinasConsumidas := 0.0;
        carbohidratosConsumidos := 0.0;
        grasasConsumidas := 0.0;
        caloriasConsumidas := 0.0;
        fecha := hoy;
      }
    }

    /** incrementarConsejosGenerados(): the counter goes up by exactly one, nothing else changes. */
    method IncrementarConsejosGenerados()
      modifies this
      ensures Doc() == old(Doc()).(consejosGenerados := old(consejosGenerados) + 1)
    {
      consejosGenerados := consejosGenerados + 1;
    }
  }
}
