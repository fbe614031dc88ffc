/**
 * Usuario: the user profile with its onboarding step flags, its goals, its
 * history of days and its saved recipes. obtenerDiaActual finds or opens the
 * day the clock falls in, taking the user's start of day into account.
 */
module Usuario {
  import opened Wrappers
  import opened Modelos
  import opened Dia
  import opened RoundingUtils
  import JavaMath

  /** The profile part of a user: identity, onboarding data and flags, goals. */
  datatype Perfil = Perfil(
    id: string,
    email: Option<string>,
    nombre: Option<string>,
    edad: Option<int>,
    sexo: Option<string>,
    alturaCm: Option<int>,
    pesoKg: Option<int>,
    horaInicioDia: Option<TimeOfDay>,
    basicosCompletos: bool,
    nivelActividad: Option<string>,
    actividadCompleta: bool,
    objetivo: Option<string>,
    objetivoCompleto: bool,
    preferencias: Option<seq<string>>,
    alergias: Option<seq<string>>,
    preferenciasCompletas: bool,
    caloriasObjetivo: real,
    macrosObjetivo: Option<Macros>,
    perfilCompleto: bool)

  /** The state of a user, as stored in the users collection: the profile, the days and the saved recipe ids. */
  datatype UsuarioDoc = UsuarioDoc(perfil: Perfil, historialDeDias: seq<DiaDoc>, recetas: seq<nat>)

  /** new Usuario() with its id set: every step pending, empty lists, no goals. */
  function NuevoUsuario(id: string): UsuarioDoc {
    UsuarioDoc(Perfil(id, None, None, None, None, None, None, None, false, None, false, None, false,
                      Some([]), Some([]), false, 0.0, None, false),
               [], [])
  }

  // ---------------------------------------------------------------------
  // The current day

  /** Before the start of day the clock still belongs to yesterday's day; at or after it, to today's. */
  function EffectiveDate(hoy: Date, ahora: TimeOfDay, inicio: TimeOfDay): (fecha: Date)
    ensures ahora < inicio ==> fecha == hoy - 1
    ensures ahora >= inicio ==> fecha == hoy
  {
    if ahora < inicio then hoy - 1 else hoy
  }

  /** The position of the first day of the history with the given date. */
  function FindDay(h: seq<DiaDoc>, fecha: Date): (r: Option<nat>)
    ensures r.Some? ==> r.value < |h| && h[r.value].fecha == fecha
    ensures r.Some? ==> forall j :: 0 <= j < r.value ==> h[j].fecha != fecha
    ensures r.None? ==> forall j :: 0 <= j < |h| ==> h[j].fecha != fecha
  {
    if |h| == 0 then None
    else if h[0].fecha == fecha then Some(0)
    else match FindDay(h[1..], fecha)
      case None => None
      case Some(i) => Some(i + 1)
  }

  /** The history after obtenerDiaActual, and the position of the day it returns. */
  datatype DiaActual = DiaActual(historial: seq<DiaDoc>, indice: nat)

  function CurrentDay(h: seq<DiaDoc>, fecha: Date, inicio: TimeOfDay): (c: DiaActual)
    ensures c.indice < |c.historial| && c.historial[c.indice].fecha == fecha
    ensures h <= c.historial
  {
    match FindDay(h, fecha)
    case Some(i) => DiaActual(h, i)
    case None => DiaActual(h + [NuevoDia(fecha, inicio)], |h|)
  }

  /** No two days of the history share a date. */
  predicate DistinctDates(h: seq<DiaDoc>) {
    forall i, j :: 0 <= i < j < |h| ==> h[i].fecha != h[j].fecha
  }

  /**
   * obtenerDiaActual: the returned day has the requested date; when the history
   * has one it is the first such and the history is unchanged, otherwise
   * exactly one fresh day is appended. Nothing is removed or reordered.
   */
  lemma CurrentDayOutcome(h: seq<DiaDoc>, fecha: Date, inicio: TimeOfDay)
    ensures var c := CurrentDay(h, fecha, inicio);
      && c.indice < |c.historial| && c.historial[c.indice].fecha == fecha
      && h <= c.historial && |c.historial| <= |h| + 1
      && (FindDay(h, fecha).Some? ==> c.historial == h && forall j :: 0 <= j < c.indice ==> h[j].fecha != fecha)
      && (FindDay(h, fecha).None? ==> c.historial == h + [NuevoDia(fecha, inicio)] && c.indice == |h|)
  {
  }

  /** A second call with the same clock appends nothing and returns the same day. */
  lemma CurrentDayIdempotent(h: seq<DiaDoc>, fecha: Date, inicio: TimeOfDay)
    ensures var c := CurrentDay(h, fecha, inicio);
      CurrentDay(c.historial, fecha, inicio) == DiaActual(c.historial, c.indice)
  {
    var c := CurrentDay(h, fecha, inicio);
    if FindDay(h, fecha).None? {
      FindDayAfterAppend(h, fecha, NuevoDia(fecha, inicio));
    }
  }

  lemma FindDayAfterAppend(h: seq<DiaDoc>, fecha: Date, d: DiaDoc)
    requires FindDay(h, fecha).None? && d.fecha == fecha
    ensures FindDay(h + [d], fecha) == Some(|h|)
  {
    assert (h + [d])[|h|] == d;
    assert forall j :: 0 <= j < |h| ==> (h + [d])[j] == h[j];
  }

  /** obtenerDiaActual keeps at most one day per date. */
  lemma CurrentDayKeepsDistinctDates(h: seq<DiaDoc>, fecha: Date, inicio: TimeOfDay)
    requires DistinctDates(h)
    ensures DistinctDates(CurrentDay(h, fecha, inicio).historial)
  {
    var c := CurrentDay(h, fecha, inicio);
    if FindDay(h, fecha).None? {
      assert forall j :: 0 <= j < |h| ==> c.historial[j] == h[j];
    }
  }

  /** actualizarMacronutrientes on the state of a user: the current day grows by the amounts, each rounded to one decimal. */
  function ActualizarSpec(u: UsuarioDoc, hoy: Date, ahora: TimeOfDay, proteinas: real, carbohidratos: real,
                          grasas: real, calorias: real): Result<UsuarioDoc>
  {
    match u.perfil.horaInicioDia
    case None => Failure(NullPointer)
    case Some(inicio) =>
      var c := CurrentDay(u.historialDeDias, EffectiveDate(hoy, ahora, inicio), inicio);
      CurrentDayOutcome(u.historialDeDias, EffectiveDate(hoy, ahora, inicio), inicio);
      var d := c.historial[c.indice];
      Success(u.(historialDeDias := c.historial[c.indice := Agregar(d, OneDecimal(proteinas), OneDecimal(carbohidratos),
                                                                   OneDecimal(grasas), OneDecimal(calorias))]))
  }

  /**
   * actualizarMacronutrientes: with no start of day it fails (LocalTime.parse(null));
   * otherwise only the day of the effective date changes, each accumulator
   * growing by its amount rounded to one decimal, calories included; every
   * other day and every other field stay as they were.
   */
  lemma ActualizarOnlyCurrentDay(u: UsuarioDoc, hoy: Date, ahora: TimeOfDay, p: real, c: real, g: real, k: real)
    ensures u.perfil.horaInicioDia.None? ==> ActualizarSpec(u, hoy, ahora, p, c, g, k) == Failure(NullPointer)
    ensures u.perfil.horaInicioDia.Some? ==>
      var inicio := u.perfil.horaInicioDia.value;
      var fecha := EffectiveDate(hoy, ahora, inicio);
      var da := CurrentDay(u.historialDeDias, fecha, inicio);
      var r := ActualizarSpec(u, hoy, ahora, p, c, g, k);
      && r.Success?
      && r.value.(historialDeDias := u.historialDeDias) == u
      && |r.value.historialDeDias| == |da.historial|
      && r.value.historialDeDias[da.indice].fecha == fecha
      && r.value.historialDeDias[da.indice]
         == Agregar(da.historial[da.indice], OneDecimal(p), OneDecimal(c), OneDecimal(g), OneDecimal(k))
      && (forall j :: 0 <= j < |u.historialDeDias| && j != da.indice ==> r.value.historialDeDias[j] == u.historialDeDias[j])
  {
    if u.perfil.horaInicioDia.Some? {
      var inicio := u.perfil.horaInicioDia.value;
      CurrentDayOutcome(u.historialDeDias, EffectiveDate(hoy, ahora, inicio), inicio);
    }
  }

  /** aplicarMetas on the state of a user. */
  function AplicarMetasSpec(p: Perfil, calorias: real, macros: Macros): Perfil {
    p.(caloriasObjetivo := JavaMath.JavaIntRound(calorias) as real,
       macrosObjetivo := Some(Macros(OneDecimal(macros.proteinasG), OneDecimal(macros.carbohidratosG),
                                     OneDecimal(macros.grasasG))))
  }

  /**
   * aplicarMetas: the calorie goal is a whole number, the HALF_UP rounding of
   * the target whenever that is non-negative and fits an int; every macro goal
   * is within 0.05 of its target and has one decimal; nothing else changes.
   */
  lemma AplicarMetasOutcome(u: Perfil, calorias: real, macros: Macros)
    ensures var v := AplicarMetasSpec(u, calorias, macros);
      && JavaMath.IsWhole(v.caloriasObjetivo)
      && (0.0 <= calorias < JavaMath.TWO_31 as real - 0.5 ==> v.caloriasObjetivo == ToInteger(calorias))
      && v.macrosObjetivo.Some?
      && Abs(v.macrosObjetivo.value.proteinasG - macros.proteinasG) <= 0.05
      && Abs(v.macrosObjetivo.value.carbohidratosG - macros.carbohidratosG) <= 0.05
      && Abs(v.macrosObjetivo.value.grasasG - macros.grasasG) <= 0.05
      && JavaMath.IsWhole(v.macrosObjetivo.value.proteinasG * 10.0)
      && JavaMath.IsWhole(v.macrosObjetivo.value.carbohidratosG * 10.0)
      && JavaMath.IsWhole(v.macrosObjetivo.value.grasasG * 10.0)
      && v.(caloriasObjetivo := u.caloriasObjetivo, macrosObjetivo := u.macrosObjetivo) == u
  {
    if 0.0 <= calorias < JavaMath.TWO_31 as real - 0.5 {
      JavaMath.JavaIntRoundInRange(calorias);
      MathRoundIsHalfUpOnNonNegatives(calorias);
    }
  }

  // ---------------------------------------------------------------------
  // The user object

  /** The states of a sequence of days. */
  function Docs(h: seq<Dia>): (r: seq<DiaDoc>)
    reads h
    ensures |r| == |h| && forall i {:trigger r[i]} :: 0 <= i < |h| ==> r[i] == h[i].Doc()
    decreases |h|
  {
    if |h| == 0 then [] else Docs(h[..|h| - 1]) + [h[|h| - 1].Doc()]
  }

  /** The documents of a history in which only the object at i may have changed since a were taken. */
  lemma DocsAfterChangeAt(h: seq<Dia>, a: seq<DiaDoc>, i: nat)
    requires i < |h| == |a|
    requires forall j :: 0 <= j < |h| && j != i ==> h[j].Doc() == a[j]
    ensures Docs(h) == a[i := h[i].Doc()]
  {
  }

  class Usuario {
    var id: string
    var email: Option<string>
    var nombre: Option<string>
    var edad: Option<int>
    var sexo: Option<string>
    var alturaCm: Option<int>
    var pesoKg: Option<int>
    var horaInicioDia: Option<TimeOfDay>
    var basicosCompletos: bool
    var nivelActividad: Option<string>
    var actividadCompleta: bool
    var objetivo: Option<string>
    var objetivoCompleto: bool
    var preferencias: Option<seq<string>>
    var alergias: Option<seq<string>>
    var preferenciasCompletas: bool
    var caloriasObjetivo: real
    var macrosObjetivo: Option<Macros>
    var perfilCompleto: bool
    var historialDeDias: seq<Dia>
    var recetas: seq<nat>

    /** The days of the history are distinct objects. */
    ghost predicate Valid()
      reads this
    {
      forall i, j :: 0 <= i < j < |historialDeDias| ==> historialDeDias[i] != historialDeDias[j]
    }

    /** The profile fields of this user as a value. */
    function Datos(): Perfil
      reads this
    {
      Perfil(id, email, nombre, edad, sexo, alturaCm, pesoKg, horaInicioDia, basicosCompletos,
             nivelActividad, actividadCompleta, objetivo, objetivoCompleto, preferencias, alergias,
             preferenciasCompletas, caloriasObjetivo, macrosObjetivo, perfilCompleto)
    }

    /** The state of this user as a value. */
    function Doc(): UsuarioDoc
      reads this, historialDeDias
    {
      UsuarioDoc(Datos(), Docs(historialDeDias), recetas)
    }

    /** new Usuario(), setId(id). */
    constructor Nuevo(id: string)
      ensures Valid() && Doc() == NuevoUsuario(id) && historialDeDias == []
    {
      this.id := id;
      email, nombre, edad, sexo, alturaCm, pesoKg, horaInicioDia := None, None, None, None, None, None, None;
      basicosCompletos, nivelActividad, actividadCompleta := false, None, false;
      objetivo, objetivoCompleto := None, false;
      preferencias, alergias, preferenciasCompletas := Some([]), Some([]), false;
      caloriasObjetivo, macrosObjetivo, perfilCompleto := 0.0, None, false;
      historialDeDias, recetas := [], [];
    }

    /** A user read back from its stored document: a fresh object graph. */
    constructor Load(d: UsuarioDoc)
      ensures Valid() && Doc() == d
      ensures forall x :: x in historialDeDias ==> fresh(x)
    {
      var h: seq<Dia> := [];
      var i := 0;
      while i < |d.historialDeDias|
        invariant 0 <= i <= |d.historialDeDias| && |h| == i
        invariant forall j :: 0 <= j < i ==> fresh(h[j]) && h[j].Doc() == d.historialDeDias[j]
        invariant forall j, k :: 0 <= j < k < i ==> h[j] != h[k]
      {
        var dia := new Dia.FromDoc(d.historialDeDias[i]);
        h := h + [dia];
        i := i + 1;
      }
      var p := d.perfil;
      id, email, nombre, edad, sexo := p.id, p.email, p.nombre, p.edad, p.sexo;
      alturaCm, pesoKg, horaInicioDia, basicosCompletos := p.alturaCm, p.pesoKg, p.horaInicioDia, p.basicosCompletos;
      nivelActividad, actividadCompleta, objetivo, objetivoCompleto := p.nivelActividad, p.actividadCompleta, p.objetivo, p.objetivoCompleto;
      preferencias, alergias, preferenciasCompletas := p.preferencias, p.alergias, p.preferenciasCompletas;
      caloriasObjetivo, macrosObjetivo, perfilCompleto := p.caloriasObjetivo, p.macrosObjetivo, p.perfilCompleto;
      historialDeDias, recetas := h, d.recetas;
      new;
      assert Docs(historialDeDias) == d.historialDeDias;
    }

    /**
     * obtenerDiaActual(), the clock passed in: the day of the effective date,
     * found by a scan of the history or appended to it.
     */
    method ObtenerDiaActual(hoy: Date, ahora: TimeOfDay) returns (r: Result<Dia>)
      requires Valid()
      modifies this
      ensures Valid()
      ensures old(historialDeDias) <= historialDeDias
      ensures forall x :: x in historialDeDias ==> x in old(historialDeDias) || fresh(x)
      ensures r.Success? ==> r.value in historialDeDias
      ensures old(horaInicioDia).None? ==> r == Failure(NullPointer) && Doc() == old(Doc())
      ensures old(horaInicioDia).Some? ==>
        var inicio := old(horaInicioDia).value;
        var c := CurrentDay(old(Doc()).historialDeDias, EffectiveDate(hoy, ahora, inicio), inicio);
        && Doc() == UsuarioDoc(old(Datos()), c.historial, old(recetas))
        && r == Success(historialDeDias[c.indice])
    {
      if horaInicioDia.None? {
        return Failure(NullPointer);
      }
      var inicio := horaInicioDia.value;
      var fecha := EffectiveDate(hoy, ahora, inicio);
      ghost var h := Docs(historialDeDias);
      var i := 0;
      while i < |historialDeDias|
        invariant 0 <= i <= |historialDeDias|
        invariant forall j :: 0 <= j < i ==> h[j].fecha != fecha
      {
        assert h[i] == historialDeDias[i].Doc();
        if historialDeDias[i].fecha == fecha {
          assert FindDay(h, fecha) == Some(i);
          return Success(historialDeDias[i]);
        }
        i := i + 1;
      }
      var nuevo := new Dia(fecha, inicio);
      historialDeDias := historialDeDias + [nuevo];
      assert Docs(historialDeDias) == h + [NuevoDia(fecha, inicio)];
      r := Success(nuevo);
    }

    /** actualizarMacronutrientes(proteinas, carbohidratos, grasas, calorias), the clock passed in. */
    method ActualizarMacronutrientes(proteinas: real, carbohidratos: real, grasas: real, calorias: real,
                                     hoy: Date, ahora: TimeOfDay) returns (r: Result<()>)
      requires Valid()
      modifies this, set d | d in historialDeDias
      ensures Valid()
      ensures forall x :: x in historialDeDias ==> x in old(historialDeDias) || fresh(x)
      ensures match ActualizarSpec(old(Doc()), hoy, ahora, proteinas, carbohidratos, grasas, calorias)
        case Success(v) => r == Success(()) && Doc() == v
        case Failure(e) => r == Failure(e) && Doc() == old(Doc())
    {
      var p := OneDecimal(proteinas);
      var c := OneDecimal(carbohidratos);
      var g := OneDecimal(grasas);
      var k := OneDecimal(calorias);
      ghost var u0 := Doc();
      var dia := ObtenerDiaActual(hoy, ahora);
      if dia.Failure? {
        return Failure(dia.error);
      }
      ghost var inicio := u0.perfil.horaInicioDia.value;
      ghost var da := CurrentDay(u0.historialDeDias, EffectiveDate(hoy, ahora, inicio), inicio);
      CurrentDayOutcome(u0.historialDeDias, EffectiveDate(hoy, ahora, inicio), inicio);
      ghost var antes := Docs(historialDeDias);
      dia.value.AgregarMacronutrientes(p, c, g, k);
      assert forall j :: 0 <= j < |historialDeDias| && j != da.indice ==> historialDeDias[j].Doc() == antes[j];
      DocsAfterChangeAt(historialDeDias, antes, da.indice);
      r := Success(());
    }

    /** aplicarMetas(calorias, macros). */
    method AplicarMetas(calorias: real, macros: Macros)
      modifies this
      ensures historialDeDias == old(historialDeDias) && recetas == old(recetas)
      ensures Datos() == AplicarMetasSpec(old(Datos()), calorias, macros)
    {
      caloriasObjetivo := JavaMath.JavaIntRound(calorias) as real;
      macrosObjetivo := Some(Macros(OneDecimal(macros.proteinasG), OneDecimal(macros.carbohidratosG),
                                    OneDecimal(macros.grasasG)));
    }
  }
}
