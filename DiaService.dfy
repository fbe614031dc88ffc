/**
 * DiaService: the day summary, the registration of a consumed food on the
 * current day, and the advice counter with its daily ceiling. The calendar
 * date and the time of day are parameters.
 */
module DiaService {
  import opened Wrappers
  import opened Modelos
  import opened Dia
  import opened Usuario
  import opened Repositories
  import opened JavaMath
  import RoundingUtils

  /** The advice ceiling as the code states it (the message of the exception says 3). */
  const LIMITE_CONSEJOS: int := 100

  /** Math.max(0, x). */
  function Max0(x: real): (m: real)
    ensures m >= 0.0 && m >= x && (m == 0.0 || m == x)
  {
    if x < 0.0 then 0.0 else x
  }

  /** rdInt: (double) Math.round(v). */
  function RdInt(v: real): (r: real)
    ensures IsWhole(r) && v - 0.5 < r <= v + 0.5
  {
    MathRound(v) as real
  }

  /**
   * A remaining value as the summary reports it: whole, never negative, the
   * nearest integer to max(0, target - consumed), and 0 once consumption has
   * reached the target.
   */
  predicate Remaining(rest: real, target: real, consumed: real) {
    && IsWhole(rest)
    && rest >= 0.0
    && Max0(target - consumed) - 0.5 < rest <= Max0(target - consumed) + 0.5
    && (consumed >= target ==> rest == 0.0)
  }

  /** A reported amount: a whole number within half a unit of the exact one. */
  predicate Reported(shown: real, exact: real) {
    IsWhole(shown) && exact - 0.5 < shown <= exact + 0.5
  }

  /** The macro targets a summary starts from: a missing target counts as zero. */
  function Objetivos(p: Perfil): (m: Macros)
    ensures p.macrosObjetivo.None? ==> m == ZERO_MACROS
    ensures p.macrosObjetivo.Some? ==> m == p.macrosObjetivo.value
  {
    if p.macrosObjetivo.Some? then p.macrosObjetivo.value else Macros(0.0, 0.0, 0.0)
  }

  /** The summary of a user's day d, built on calendar date hoy. */
  function Resumen(p: Perfil, d: DiaDoc, hoy: Date): ResumenDiaDTO
  {
    var mo := Objetivos(p);
    ResumenDiaDTO(
      hoy,
      RdInt(p.caloriasObjetivo),
      RdInt(d.caloriasConsumidas),
      RdInt(Max0(p.caloriasObjetivo - d.caloriasConsumidas)),
      Macros(RdInt(mo.proteinasG), RdInt(mo.carbohidratosG), RdInt(mo.grasasG)),
      Macros(RdInt(d.proteinasConsumidas), RdInt(d.carbohidratosConsumidos), RdInt(d.grasasConsumidas)),
      Macros(RdInt(Max0(mo.proteinasG - d.proteinasConsumidas)),
             RdInt(Max0(mo.carbohidratosG - d.carbohidratosConsumidos)),
             RdInt(Max0(mo.grasasG - d.grasasConsumidas))),
      d.consejosGenerados)
  }

  /**
   * getResumenDelDia's figures: the date is today's, the advice count is the
   * day's, every target and consumed amount is shown as its nearest whole
   * number, and every remaining amount is clamped at zero and rounded.
   */
  lemma ResumenReports(p: Perfil, d: DiaDoc, hoy: Date)
    ensures Resumen(p, d, hoy).fecha == hoy && Resumen(p, d, hoy).consejosGenerados == d.consejosGenerados
    ensures Reported(Resumen(p, d, hoy).caloriasObjetivo, p.caloriasObjetivo)
    ensures Reported(Resumen(p, d, hoy).caloriasConsumidas, d.caloriasConsumidas)
    ensures Remaining(Resumen(p, d, hoy).caloriasRestantes, p.caloriasObjetivo, d.caloriasConsumidas)
    ensures Reported(Resumen(p, d, hoy).macrosObjetivo.proteinasG, Objetivos(p).proteinasG)
    ensures Reported(Resumen(p, d, hoy).macrosObjetivo.carbohidratosG, Objetivos(p).carbohidratosG)
    ensures Reported(Resumen(p, d, hoy).macrosObjetivo.grasasG, Objetivos(p).grasasG)
    ensures Reported(Resumen(p, d, hoy).macrosConsumidos.proteinasG, d.proteinasConsumidas)
    ensures Reported(Resumen(p, d, hoy).macrosConsumidos.carbohidratosG, d.carbohidratosConsumidos)
    ensures Reported(Resumen(p, d, hoy).macrosConsumidos.grasasG, d.grasasConsumidas)
    ensures Remaining(Resumen(p, d, hoy).macrosRestantes.proteinasG, Objetivos(p).proteinasG, d.proteinasConsumidas)
    ensures Remaining(Resumen(p, d, hoy).macrosRestantes.carbohidratosG, Objetivos(p).carbohidratosG, d.carbohidratosConsumidos)
    ensures Remaining(Resumen(p, d, hoy).macrosRestantes.grasasG, Objetivos(p).grasasG, d.grasasConsumidas)
  {
  }

  /** A remaining value is zero exactly when less than half a unit is left to the target. */
  lemma RemainingZeroIff(rest: real, target: real, consumed: real)
    requires Remaining(rest, target, consumed)
    ensures rest == 0.0 <==> target - consumed < 0.5
  {
  }

  /** A user without macro targets is shown zero targets and zero remaining macros. */
  lemma SinObjetivosDeMacros(p: Perfil, d: DiaDoc, hoy: Date)
    requires p.macrosObjetivo.None?
    requires d.proteinasConsumidas >= 0.0 && d.carbohidratosConsumidos >= 0.0 && d.grasasConsumidas >= 0.0
    ensures Resumen(p, d, hoy).macrosObjetivo == ZERO_MACROS
    ensures Resumen(p, d, hoy).macrosRestantes == ZERO_MACROS
  {
    MathRoundWhole(0);
  }

  /** getResumenDelDia on the stored users: the summary of the current day, which is not saved. */
  function ResumenDelDiaSpec(usuarios: map<string, UsuarioDoc>, id: string, hoy: Date, ahora: TimeOfDay): Result<ResumenDiaDTO> {
    if id !in usuarios then Failure(NotFound)
    else
      var u := usuarios[id];
      match u.perfil.horaInicioDia
      case None => Failure(NullPointer)
      case Some(inicio) =>
        var c := CurrentDay(u.historialDeDias, EffectiveDate(hoy, ahora, inicio), inicio);
        Success(Resumen(u.perfil, c.historial[c.indice], hoy))
  }

  /** registrarAlimento on the stored users. */
  function RegistrarSpec(usuarios: map<string, UsuarioDoc>, id: string, m: MacrosDTO, hoy: Date, ahora: TimeOfDay)
    : Result<map<string, UsuarioDoc>>
  {
    if id !in usuarios then Failure(NotFound)
    else match ActualizarSpec(usuarios[id], hoy, ahora, m.proteinas, m.carbohidratos, m.grasas, m.calorias)
      case Failure(e) => Failure(e)
      case Success(v) => Success(usuarios[id := v])
  }

  /** The stored users after solicitarConsejo, and what it returns. */
  datatype Consejo = Consejo(usuarios: map<string, UsuarioDoc>, resumen: Result<ResumenDiaDTO>)

  /** The state of user u once the advice counter of its current day has gone up. */
  function ConConsejo(u: UsuarioDoc, c: DiaActual): UsuarioDoc
    requires c.indice < |c.historial|
  {
    var d := c.historial[c.indice];
    UsuarioDoc(u.perfil, c.historial[c.indice := d.(consejosGenerados := d.consejosGenerados + 1)], u.recetas)
  }

  /** The state saved by solicitarConsejo, assembled from the steps of the method. */
  lemma ConConsejoShape(u: UsuarioDoc, c: DiaActual, antes: seq<DiaDoc>, d0: DiaDoc, v: UsuarioDoc)
    requires c.indice < |c.historial| && antes == c.historial && d0 == c.historial[c.indice]
    requires v.perfil == u.perfil && v.recetas == u.recetas
    requires v.historialDeDias == antes[c.indice := d0.(consejosGenerados := d0.consejosGenerados + 1)]
    ensures v == ConConsejo(u, c)
  {
  }

  /** solicitarConsejo on the stored users; the summary it returns is taken with the same clock. */
  function SolicitarConsejoSpec(usuarios: map<string, UsuarioDoc>, id: string, hoy: Date, ahora: TimeOfDay): Consejo {
    if id !in usuarios then Consejo(usuarios, Failure(NotFound))
    else
      var u := usuarios[id];
      match u.perfil.horaInicioDia
      case None => Consejo(usuarios, Failure(NullPointer))
      case Some(inicio) =>
        var c := CurrentDay(u.historialDeDias, EffectiveDate(hoy, ahora, inicio), inicio);
        if c.historial[c.indice].consejosGenerados >= LIMITE_CONSEJOS then Consejo(usuarios, Failure(BadRequest))
        else
          var v := ConConsejo(u, c);
          Consejo(usuarios[id := v], ResumenDelDiaSpec(usuarios[id := v], id, hoy, ahora))
  }

  /**
   * solicitarConsejo: an unknown user fails with NOT_FOUND, a day whose
   * counter has reached the ceiling with BAD_REQUEST, and neither saves
   * anything. Otherwise exactly that day's counter rises by one and is saved,
   * it stays within the ceiling, and the returned summary reports it.
   */
  lemma SolicitarConsejoOutcome(usuarios: map<string, UsuarioDoc>, id: string, hoy: Date, ahora: TimeOfDay)
    ensures var s := SolicitarConsejoSpec(usuarios, id, hoy, ahora);
      && (id !in usuarios ==> s == Consejo(usuarios, Failure(NotFound)))
      && (s.resumen.Failure? ==> s.usuarios == usuarios)
      && (id in usuarios && usuarios[id].perfil.horaInicioDia.Some? ==>
            var u := usuarios[id];
            var inicio := u.perfil.horaInicioDia.value;
            var c := CurrentDay(u.historialDeDias, EffectiveDate(hoy, ahora, inicio), inicio);
            var d := c.historial[c.indice];
            && (d.consejosGenerados >= LIMITE_CONSEJOS ==> s.resumen == Failure(BadRequest))
            && (d.consejosGenerados < LIMITE_CONSEJOS ==>
                  && id in s.usuarios
                  && s.usuarios[id].historialDeDias[c.indice].consejosGenerados == d.consejosGenerados + 1
                  && d.consejosGenerados + 1 <= LIMITE_CONSEJOS
                  && s.resumen.Success?
                  && s.resumen.value.consejosGenerados == d.consejosGenerados + 1))
  {
    if id in usuarios && usuarios[id].perfil.horaInicioDia.Some? {
      var u := usuarios[id];
      var inicio := u.perfil.horaInicioDia.value;
      var fecha := EffectiveDate(hoy, ahora, inicio);
      var c := CurrentDay(u.historialDeDias, fecha, inicio);
      var d := c.historial[c.indice];
      if d.consejosGenerados < LIMITE_CONSEJOS {
        var v := ConConsejo(u, c);
        CurrentDayIdempotent(u.historialDeDias, fecha, inicio);
        ConConsejoKeepsCurrentDay(c.historial, c.indice, fecha, inicio, d.(consejosGenerados := d.consejosGenerados + 1));
        ResumenReports(v.perfil, v.historialDeDias[c.indice], hoy);
      }
    }
  }

  /** solicitarConsejo's successful exit: the user saved with the raised counter, and its summary. */
  lemma SolicitarConsejoExito(usuarios: map<string, UsuarioDoc>, id: string, hoy: Date, ahora: TimeOfDay,
                              inicio: TimeOfDay, c: DiaActual, v: UsuarioDoc)
    requires id in usuarios && usuarios[id].perfil.horaInicioDia == Some(inicio)
    requires c == CurrentDay(usuarios[id].historialDeDias, EffectiveDate(hoy, ahora, inicio), inicio)
    requires c.historial[c.indice].consejosGenerados < LIMITE_CONSEJOS
    requires v == ConConsejo(usuarios[id], c)
    ensures SolicitarConsejoSpec(usuarios, id, hoy, ahora) == Consejo(usuarios[id := v], ResumenDelDiaSpec(usuarios[id := v], id, hoy, ahora))
  {
  }

  /** Changing the found day in place, its date kept, leaves it the current day. */
  lemma ConConsejoKeepsCurrentDay(h: seq<DiaDoc>, i: nat, fecha: Date, inicio: TimeOfDay, e: DiaDoc)
    requires CurrentDay(h, fecha, inicio) == DiaActual(h, i)
    requires e.fecha == fecha
    ensures CurrentDay(h[i := e], fecha, inicio) == DiaActual(h[i := e], i)
  {
    assert FindDay(h, fecha) == Some(i);
    FindDayReplace(h, i, fecha, e);
  }

  lemma {:induction false} FindDayReplace(h: seq<DiaDoc>, i: nat, fecha: Date, e: DiaDoc)
    requires FindDay(h, fecha) == Some(i) && e.fecha == fecha
    ensures FindDay(h[i := e], fecha) == Some(i)
    decreases |h|
  {
    if i > 0 {
      assert h[0].fecha != fecha;
      assert h[i := e][1..] == h[1..][i - 1 := e];
      FindDayReplace(h[1..], i - 1, fecha, e);
    }
  }

  /** registrarAlimento: the stored user's current day grows by the rounded amounts, and only that day. */
  lemma RegistrarOutcome(usuarios: map<string, UsuarioDoc>, id: string, m: MacrosDTO, hoy: Date, ahora: TimeOfDay)
    ensures id !in usuarios ==> RegistrarSpec(usuarios, id, m, hoy, ahora) == Failure(NotFound)
    ensures id in usuarios && usuarios[id].perfil.horaInicioDia.None? ==>
      RegistrarSpec(usuarios, id, m, hoy, ahora) == Failure(NullPointer)
    ensures id in usuarios && usuarios[id].perfil.horaInicioDia.Some? ==>
      var u := usuarios[id];
      var inicio := u.perfil.horaInicioDia.value;
      var c := CurrentDay(u.historialDeDias, EffectiveDate(hoy, ahora, inicio), inicio);
      var r := RegistrarSpec(usuarios, id, m, hoy, ahora);
      && r.Success?
      && r.value.Keys == usuarios.Keys
      && (forall k :: k in usuarios && k != id ==> r.value[k] == usuarios[k])
      && r.value[id].historialDeDias[c.indice]
         == Agregar(c.historial[c.indice], RoundingUtils.OneDecimal(m.proteinas), RoundingUtils.OneDecimal(m.carbohidratos),
                    RoundingUtils.OneDecimal(m.grasas), RoundingUtils.OneDecimal(m.calorias))
  {
    if id in usuarios {
      ActualizarOnlyCurrentDay(usuarios[id], hoy, ahora, m.proteinas, m.carbohidratos, m.grasas, m.calorias);
    }
  }

  // ---------------------------------------------------------------------
  // The service

  class DiaService {
    const usuarioRepository: UsuarioRepository

    constructor (usuarioRepository: UsuarioRepository)
      ensures this.usuarioRepository == usuarioRepository
    {
      this.usuarioRepository := usuarioRepository;
    }

    /** getResumenDelDia(usuarioId): the summary; the day it may open is not saved. */
    method GetResumenDelDia(usuarioId: string, hoy: Date, ahora: TimeOfDay) returns (r: Result<ResumenDiaDTO>)
      ensures r == ResumenDelDiaSpec(usuarioRepository.usuarios, usuarioId, hoy, ahora)
    {
      var found := usuarioRepository.FindById(usuarioId);
      if found.None? {
        return Failure(NotFound);
      }
      var usuario := found.value;
      var dia := usuario.ObtenerDiaActual(hoy, ahora);
      if dia.Failure? {
        return Failure(dia.error);
      }
      r := Success(Resumen(usuario.Datos(), dia.value.Doc(), hoy));
    }

    /** registrarAlimento(usuarioId, dto), the clock passed in. */
    method RegistrarAlimento(usuarioId: string, m: MacrosDTO, hoy: Date, ahora: TimeOfDay) returns (r: Result<()>)
      requires usuarioRepository.Valid()
      modifies usuarioRepository
      ensures usuarioRepository.Valid()
      ensures match RegistrarSpec(old(usuarioRepository.usuarios), usuarioId, m, hoy, ahora)
        case Success(s) => r == Success(()) && usuarioRepository.usuarios == s
        case Failure(e) => r == Failure(e) && usuarioRepository.usuarios == old(usuarioRepository.usuarios)
    {
      var found := usuarioRepository.FindById(usuarioId);
      if found.None? {
        return Failure(NotFound);
      }
      var usuario := found.value;
      r := usuario.ActualizarMacronutrientes(m.proteinas, m.carbohidratos, m.grasas, m.calorias, hoy, ahora);
      if r.Failure? {
        return;
      }
      usuarioRepository.Save(usuario);
    }

    /** dia.incrementarConsejosGenerados() on the user's current day: only that day's counter moves. */
    method ContarConsejo(usuario: Usuario, dia: Dia, ghost u: UsuarioDoc, ghost c: DiaActual)
      requires usuario.Valid() && c.indice < |usuario.historialDeDias| && usuario.historialDeDias[c.indice] == dia
      requires usuario.Doc() == UsuarioDoc(u.perfil, c.historial, u.recetas)
      modifies dia
      ensures usuario.Valid() && usuario.Doc() == ConConsejo(u, c)
    {
      ghost var h := usuario.historialDeDias;
      ghost var antes := Docs(h);
      ghost var d0 := dia.Doc();
      dia.IncrementarConsejosGenerados();
      assert forall j :: 0 <= j < |h| && j != c.indice ==> h[j].Doc() == antes[j];
      DocsAfterChangeAt(h, antes, c.indice);
      ConConsejoShape(u, c, antes, d0, usuario.Doc());
    }

    /** solicitarConsejo(usuarioId), the clock passed in. */
    method SolicitarConsejo(usuarioId: string, hoy: Date, ahora: TimeOfDay) returns (r: Result<ResumenDiaDTO>)
      requires usuarioRepository.Valid()
      modifies usuarioRepository
      ensures usuarioRepository.Valid()
      ensures Consejo(usuarioRepository.usuarios, r) == SolicitarConsejoSpec(old(usuarioRepository.usuarios), usuarioId, hoy, ahora)
    {
      ghost var us0 := usuarioRepository.usuarios;
      var found := usuarioRepository.FindById(usuarioId);
      if found.None? {
        return Failure(NotFound);
      }
      var usuario := found.value;
      ghost var id := usuario.id;
      assert id == usuarioId;
      ghost var u0 := usuario.Doc();
      var dia := usuario.ObtenerDiaActual(hoy, ahora);
      if dia.Failure? {
        return Failure(dia.error);
      }
      ghost var inicio := u0.perfil.horaInicioDia.value;
      ghost var c := CurrentDay(u0.historialDeDias, EffectiveDate(hoy, ahora, inicio), inicio);
      assert dia.value.Doc() == c.historial[c.indice];
      if dia.value.consejosGenerados >= LIMITE_CONSEJOS {
        return Failure(BadRequest);
      }
      ContarConsejo(usuario, dia.value, u0, c);
      ghost var v := usuario.Doc();
      usuarioRepository.Save(usuario);
      assert usuarioRepository.usuarios == us0[usuarioId := v];
      SolicitarConsejoExito(us0, usuarioId, hoy, ahora, inicio, c, v);
      r := GetResumenDelDia(usuarioId, hoy, ahora);
    }
  }
}
