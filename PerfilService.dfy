/**
 * PerfilService: the onboarding steps. Three operations mark a step as done,
 * completarObjetivo derives the calorie and macro goals from the profile's
 * metrics, and revisarPerfilCompleto keeps perfilCompleto equal to the AND of
 * the four step flags.
 *
 * The service as written runs the goal step and the flag step through a
 * cycle of calls (completarObjetivo -> marcarObjetivoCompleto ->
 * revisarPerfilCompleto -> completarObjetivo), each reloading and saving its
 * own copy of the user. The functions ending in AsWritten model that cycle;
 * the class models one derivation pass, which the rest of the model uses.
 */
module PerfilService {
  import opened Wrappers
  import opened Modelos
  import opened Usuario
  import opened Repositories
  import MetabolismoService
  import NivelActividad
  import ObjetivoNutricional
  import JavaMath
  import RoundingUtils
  import Text

  /** The three steps the service marks itself; the preferences step is marked by UsuarioService. */
  datatype Paso = Basicos | Actividad | Objetivo

  /** All four onboarding steps are done. */
  predicate TodosLosPasos(p: Perfil) {
    p.basicosCompletos && p.actividadCompleta && p.objetivoCompleto && p.preferenciasCompletas
  }

  /** perfilCompleto agrees with the four step flags. */
  predicate Coherente(p: Perfil) {
    p.perfilCompleto == TodosLosPasos(p)
  }

  /** revisarPerfilCompleto(u), one pass: the derived flag is the AND of the four, nothing else moves. */
  function Revisar(p: Perfil): (q: Perfil)
    ensures q.perfilCompleto <==> p.basicosCompletos && p.actividadCompleta && p.objetivoCompleto && p.preferenciasCompletas
    ensures Coherente(q)
    ensures q.(perfilCompleto := p.perfilCompleto) == p
  {
    p.(perfilCompleto := TodosLosPasos(p))
  }

  /** The profile with one step marked done, before the review. */
  function ConPaso(p: Perfil, paso: Paso): Perfil {
    match paso
    case Basicos => p.(basicosCompletos := true)
    case Actividad => p.(actividadCompleta := true)
    case Objetivo => p.(objetivoCompleto := true)
  }

  /** marcarBasicosCompletos / marcarActividadCompleta / marcarObjetivoCompleto on a profile. */
  function Marcar(p: Perfil, paso: Paso): Perfil {
    Revisar(ConPaso(p, paso))
  }

  /**
   * Marking a step sets its own flag and no other step flag; perfilCompleto
   * becomes the AND of the four; every other field stays.
   */
  lemma MarcarOutcome(p: Perfil, paso: Paso)
    ensures var q := Marcar(p, paso);
      && (paso == Basicos ==> q.basicosCompletos && q.actividadCompleta == p.actividadCompleta && q.objetivoCompleto == p.objetivoCompleto)
      && (paso == Actividad ==> q.actividadCompleta && q.basicosCompletos == p.basicosCompletos && q.objetivoCompleto == p.objetivoCompleto)
      && (paso == Objetivo ==> q.objetivoCompleto && q.basicosCompletos == p.basicosCompletos && q.actividadCompleta == p.actividadCompleta)
      && q.preferenciasCompletas == p.preferenciasCompletas
      && Coherente(q)
      && q.(basicosCompletos := p.basicosCompletos, actividadCompleta := p.actividadCompleta,
            objetivoCompleto := p.objetivoCompleto, perfilCompleto := p.perfilCompleto) == p
  {
  }

  /** Marking a step twice is marking it once, and the steps can be marked in any order. */
  lemma MarcarIdempotentYConmutativo(p: Perfil, a: Paso, b: Paso)
    ensures Marcar(Marcar(p, a), a) == Marcar(p, a)
    ensures Marcar(Marcar(p, a), b) == Marcar(Marcar(p, b), a)
  {
  }

  /** Once the preferences are done, marking the three other steps, in any order, completes the profile. */
  lemma TresPasosCompletan(p: Perfil, a: Paso, b: Paso, c: Paso)
    requires p.preferenciasCompletas
    requires {a, b, c} == {Basicos, Actividad, Objetivo}
    ensures Marcar(Marcar(Marcar(p, a), b), c).perfilCompleto
  {
    assert a in {a, b, c} && b in {a, b, c} && c in {a, b, c};
    assert Basicos in {a, b, c} && Actividad in {a, b, c} && Objetivo in {a, b, c};
  }

  // ---------------------------------------------------------------------
  // The goals

  /** The calorie target and its macro split. */
  datatype Meta = Meta(calorias: real, macros: Macros)

  /**
   * Lines 29-34 of completarObjetivo: the BMR from the stored metrics (a
   * missing one cannot be unboxed), then the activity level and the
   * objective by name, upper-cased (a null name cannot be upper-cased, an
   * unknown one is not a constant), then the target and its split.
   */
  function Metas(p: Perfil, nivelActStr: Option<string>, objetivoStr: Option<string>): Result<Meta> {
    if p.pesoKg.None? || p.alturaCm.None? || p.edad.None? then Failure(NullPointer)
    else
      var bmr := MetabolismoService.CalcularBmr(p.pesoKg.value as real, p.alturaCm.value, p.edad.value, p.sexo);
      if nivelActStr.None? then Failure(NullPointer)
      else match NivelActividad.ValueOfIgnoringCase(nivelActStr.value)
      case Failure(e) => Failure(e)
      case Success(nivel) =>
        var tdee := MetabolismoService.CalcularTdee(bmr, nivel);
        if objetivoStr.None? then Failure(NullPointer)
        else match ObjetivoNutricional.ValueOfIgnoringCase(objetivoStr.value)
        case Failure(e) => Failure(e)
        case Success(obj) =>
          var cal := MetabolismoService.CalcularCaloriasObjetivo(tdee, obj);
          Success(Meta(cal, MetabolismoService.CalcularMacrosObjetivo(cal)))
  }

  /** completarObjetivo on a profile, in one pass: objective, goals, the step flag and the review. */
  function Completar(p: Perfil, nivelActStr: Option<string>, objetivoStr: Option<string>): Result<Perfil> {
    match Metas(p, nivelActStr, objetivoStr)
    case Failure(e) => Failure(e)
    case Success(m) =>
      Success(Revisar(AplicarMetasSpec(p.(objetivo := objetivoStr), m.calorias, m.macros).(objetivoCompleto := true)))
  }

  /**
   * completarObjetivo: a missing metric or name fails with NullPointer and an
   * unknown name with UnknownConstant, before anything is written. Otherwise
   * the objective string is stored, the calorie goal is the rounded
   * calcularCaloriasObjetivo(calcularTdee(calcularBmr(w, h, a, s), N), O), the
   * macro goals are its 30/25/45 split rounded to one decimal, the objective
   * step is done, perfilCompleto agrees with the four flags, and nothing else changes.
   */
  lemma CompletarOutcome(p: Perfil, nivelActStr: Option<string>, objetivoStr: Option<string>)
    ensures p.pesoKg.None? || p.alturaCm.None? || p.edad.None? ==> Completar(p, nivelActStr, objetivoStr) == Failure(NullPointer)
    ensures p.pesoKg.Some? && p.alturaCm.Some? && p.edad.Some? ==>
      && (nivelActStr.None? ==> Completar(p, nivelActStr, objetivoStr) == Failure(NullPointer))
      && (nivelActStr.Some? && NivelActividad.ValueOfIgnoringCase(nivelActStr.value).Failure? ==>
            Completar(p, nivelActStr, objetivoStr) == Failure(UnknownConstant))
      && (nivelActStr.Some? && NivelActividad.ValueOfIgnoringCase(nivelActStr.value).Success? ==>
            && (objetivoStr.None? ==> Completar(p, nivelActStr, objetivoStr) == Failure(NullPointer))
            && (objetivoStr.Some? && ObjetivoNutricional.ValueOfIgnoringCase(objetivoStr.value).Failure? ==>
                  Completar(p, nivelActStr, objetivoStr) == Failure(UnknownConstant)))
    ensures Completar(p, nivelActStr, objetivoStr).Success? <==>
      && p.pesoKg.Some? && p.alturaCm.Some? && p.edad.Some?
      && nivelActStr.Some? && NivelActividad.ValueOfIgnoringCase(nivelActStr.value).Success?
      && objetivoStr.Some? && ObjetivoNutricional.ValueOfIgnoringCase(objetivoStr.value).Success?
    ensures Completar(p, nivelActStr, objetivoStr).Success? ==>
      var q := Completar(p, nivelActStr, objetivoStr).value;
      var cal := MetabolismoService.CaloriasObjetivoDe(p.pesoKg.value as real, p.alturaCm.value, p.edad.value, p.sexo,
                   NivelActividad.ValueOfIgnoringCase(nivelActStr.value).value,
                   ObjetivoNutricional.ValueOfIgnoringCase(objetivoStr.value).value);
      var m := MetabolismoService.CalcularMacrosObjetivo(cal);
      && q.objetivo == objetivoStr
      && q.caloriasObjetivo == JavaMath.JavaIntRound(cal) as real
      && q.macrosObjetivo == Some(Macros(RoundingUtils.OneDecimal(m.proteinasG), RoundingUtils.OneDecimal(m.carbohidratosG),
                                         RoundingUtils.OneDecimal(m.grasasG)))
      && q.objetivoCompleto
      && Coherente(q)
      && q.(objetivo := p.objetivo, caloriasObjetivo := p.caloriasObjetivo, macrosObjetivo := p.macrosObjetivo,
            objetivoCompleto := p.objetivoCompleto, perfilCompleto := p.perfilCompleto) == p
  {
  }

  /** completarObjetivo a second time with the same names stores the same goals again. */
  lemma CompletarIdempotent(p: Perfil, nivelActStr: Option<string>, objetivoStr: Option<string>)
    requires Completar(p, nivelActStr, objetivoStr).Success?
    ensures var q := Completar(p, nivelActStr, objetivoStr).value;
      Completar(q, nivelActStr, objetivoStr) == Success(q)
  {
    var q := Completar(p, nivelActStr, objetivoStr).value;
    assert Metas(q, nivelActStr, objetivoStr) == Metas(p, nivelActStr, objetivoStr);
  }

  // ---------------------------------------------------------------------
  // The operations on the stored users

  /** The stored users with user id's profile replaced. */
  function ConPerfil(usuarios: map<string, UsuarioDoc>, id: string, q: Perfil): map<string, UsuarioDoc>
    requires id in usuarios
  {
    usuarios[id := usuarios[id].(perfil := q)]
  }

  /** completarObjetivo(usuarioId, nivelActStr, objetivoStr) on the stored users, in one pass. */
  function CompletarObjetivoSpec(usuarios: map<string, UsuarioDoc>, id: string, nivelActStr: Option<string>,
                                 objetivoStr: Option<string>): Result<map<string, UsuarioDoc>>
  {
    if id !in usuarios then Failure(NotFound)
    else match Completar(usuarios[id].perfil, nivelActStr, objetivoStr)
      case Failure(e) => Failure(e)
      case Success(q) => Success(ConPerfil(usuarios, id, q))
  }

  /** marcar*Complet*(usuarioId) on the stored users. */
  function MarcarSpec(usuarios: map<string, UsuarioDoc>, id: string, paso: Paso): Result<map<string, UsuarioDoc>> {
    if id !in usuarios then Failure(NotFound)
    else Success(ConPerfil(usuarios, id, Marcar(usuarios[id].perfil, paso)))
  }

  /** The stored users after recalcularMetas, and the user it returns: the copy it read, before the recalculation. */
  datatype Recalculo = Recalculo(usuarios: map<string, UsuarioDoc>, devuelto: UsuarioDoc)

  function RecalcularMetasSpec(usuarios: map<string, UsuarioDoc>, id: string): Result<Recalculo> {
    if id !in usuarios then Failure(NotFound)
    else
      var p := usuarios[id].perfil;
      if p.nivelActividad.Some? && p.objetivo.Some? then
        match CompletarObjetivoSpec(usuarios, id, p.nivelActividad, p.objetivo)
        case Failure(e) => Failure(e)
        case Success(s) => Success(Recalculo(s, usuarios[id]))
      else Success(Recalculo(usuarios, usuarios[id]))
  }

  /**
   * Every operation fails with NOT_FOUND on an unknown id; a failure leaves the
   * store as it was; a success changes the profile of that user alone, its
   * days and saved recipes included, and keeps perfilCompleto coherent.
   */
  lemma OperacionesSobreElAlmacen(usuarios: map<string, UsuarioDoc>, id: string, paso: Paso,
                                  nivelActStr: Option<string>, objetivoStr: Option<string>)
    ensures id !in usuarios ==>
      && MarcarSpec(usuarios, id, paso) == Failure(NotFound)
      && CompletarObjetivoSpec(usuarios, id, nivelActStr, objetivoStr) == Failure(NotFound)
      && RecalcularMetasSpec(usuarios, id) == Failure(NotFound)
    ensures id in usuarios ==>
      var u := usuarios[id];
      && MarcarSpec(usuarios, id, paso).Success?
      && (forall r :: r in [MarcarSpec(usuarios, id, paso), CompletarObjetivoSpec(usuarios, id, nivelActStr, objetivoStr)] && r.Success? ==>
            && r.value.Keys == usuarios.Keys
            && (forall k :: k in usuarios && k != id ==> r.value[k] == usuarios[k])
            && r.value[id].historialDeDias == u.historialDeDias && r.value[id].recetas == u.recetas
            && Coherente(r.value[id].perfil))
  {
  }

  /** recalcularMetas without a stored level or objective changes nothing; with both it is completarObjetivo on them. */
  lemma RecalcularOutcome(usuarios: map<string, UsuarioDoc>, id: string)
    requires id in usuarios
    ensures var p := usuarios[id].perfil;
      && (p.nivelActividad.None? || p.objetivo.None? ==> RecalcularMetasSpec(usuarios, id) == Success(Recalculo(usuarios, usuarios[id])))
      && (p.nivelActividad.Some? && p.objetivo.Some? ==>
            match CompletarObjetivoSpec(usuarios, id, p.nivelActividad, p.objetivo)
            case Success(s) => RecalcularMetasSpec(usuarios, id) == Success(Recalculo(s, usuarios[id]))
            case Failure(e) => RecalcularMetasSpec(usuarios, id) == Failure(e))
  {
  }

  // ---------------------------------------------------------------------
  // The cycle as written

  /**
   * completarObjetivo as written, with a call-stack budget: after computing
   * the goals on its copy it calls marcarObjetivoCompleto, which reloads
   * the user and saves its own copy, and then saves its copy over it.
   */
  function CompletarObjetivoAsWritten(usuarios: map<string, UsuarioDoc>, id: string, nivelActStr: Option<string>,
                                      objetivoStr: Option<string>, pila: nat): Result<map<string, UsuarioDoc>>
    decreases pila, 0
  {
    if pila == 0 then Failure(RecursionOverflow)
    else if id !in usuarios then Failure(NotFound)
    else
      var p := usuarios[id].perfil;
      match Metas(p, nivelActStr, objetivoStr)
      case Failure(e) => Failure(e)
      case Success(m) =>
        var copia := AplicarMetasSpec(p.(objetivo := objetivoStr), m.calorias, m.macros);
        match MarcarAsWritten(usuarios, id, Objetivo, pila - 1)
        case Failure(e) => Failure(e)
        case Success(s) => Success(s[id := usuarios[id].(perfil := copia)])
  }

  /**
   * marcar*Complet* as written: the step flag, then revisarPerfilCompleto,
   * which on four done steps sets perfilCompleto and calls completarObjetivo
   * with the stored level and objective, then the save of this copy.
   */
  function MarcarAsWritten(usuarios: map<string, UsuarioDoc>, id: string, paso: Paso, pila: nat)
    : Result<map<string, UsuarioDoc>>
    decreases pila, 1
  {
    if id !in usuarios then Failure(NotFound)
    else
      var p := ConPaso(usuarios[id].perfil, paso);
      if TodosLosPasos(p) then
        match CompletarObjetivoAsWritten(usuarios, p.id, p.nivelActividad, p.objetivo, pila)
        case Failure(e) => Failure(e)
        case Success(s) => Success(s[id := usuarios[id].(perfil := p.(perfilCompleto := true))])
      else Success(usuarios[id := usuarios[id].(perfil := p.(perfilCompleto := false))])
  }

  /**
   * Whatever the depth of the call stack, once the other three steps are
   * stored as done, completarObjetivo as written never succeeds: it fails
   * on the goals, one level down (CicloSinObjetivo), or goes round the cycle
   * until the stack runs out (CicloDesbordado).
   */
  lemma {:induction false} CicloSinSalida(usuarios: map<string, UsuarioDoc>, id: string, nivelActStr: Option<string>,
                                          objetivoStr: Option<string>, pila: nat)
    requires id in usuarios && usuarios[id].perfil.id == id
    requires usuarios[id].perfil.basicosCompletos && usuarios[id].perfil.actividadCompleta
    requires usuarios[id].perfil.preferenciasCompletas
    ensures CompletarObjetivoAsWritten(usuarios, id, nivelActStr, objetivoStr, pila).Failure?
    decreases pila
  {
    var p := usuarios[id].perfil;
    if pila > 0 {
      CicloSinSalida(usuarios, id, p.nivelActividad, p.objetivo, pila - 1);
    }
  }

  /**
   * The first way the cycle ends: with no objective stored yet (a user
   * setting it for the first time), the nested completarObjetivo receives
   * the stored null objective and fails one level down, at its goals; with
   * a valid stored level that is the NullPointerException of line 32, and
   * nothing is saved.
   */
  lemma CicloSinObjetivo(usuarios: map<string, UsuarioDoc>, id: string, nivelActStr: Option<string>,
                         objetivoStr: Option<string>, pila: nat)
    requires id in usuarios && usuarios[id].perfil.id == id && pila >= 2
    requires usuarios[id].perfil.basicosCompletos && usuarios[id].perfil.actividadCompleta
    requires usuarios[id].perfil.preferenciasCompletas
    requires usuarios[id].perfil.objetivo.None?
    requires Metas(usuarios[id].perfil, nivelActStr, objetivoStr).Success?
    ensures Metas(usuarios[id].perfil, usuarios[id].perfil.nivelActividad, None).Failure?
    ensures CompletarObjetivoAsWritten(usuarios, id, nivelActStr, objetivoStr, pila)
            == Failure(Metas(usuarios[id].perfil, usuarios[id].perfil.nivelActividad, None).error)
    ensures var nivel := usuarios[id].perfil.nivelActividad;
            nivel.Some? && NivelActividad.ValueOfIgnoringCase(nivel.value).Success? ==>
              CompletarObjetivoAsWritten(usuarios, id, nivelActStr, objetivoStr, pila) == Failure(NullPointer)
  {
    var p := usuarios[id].perfil;
    var e := Metas(p, p.nivelActividad, None).error;
    assert CompletarObjetivoAsWritten(usuarios, id, p.nivelActividad, None, pila - 1) == Failure(e);
    assert MarcarAsWritten(usuarios, id, Objetivo, pila - 1) == Failure(e);
  }

  /**
   * The second way: with a valid level and objective stored, every nested
   * completarObjetivo computes its goals and marks again, so the calls go
   * round until the stack runs out, at any depth.
   */
  lemma {:induction false} CicloDesbordado(usuarios: map<string, UsuarioDoc>, id: string, nivelActStr: Option<string>,
                                           objetivoStr: Option<string>, pila: nat)
    requires id in usuarios && usuarios[id].perfil.id == id
    requires usuarios[id].perfil.basicosCompletos && usuarios[id].perfil.actividadCompleta
    requires usuarios[id].perfil.preferenciasCompletas
    requires Metas(usuarios[id].perfil, usuarios[id].perfil.nivelActividad, usuarios[id].perfil.objetivo).Success?
    requires Metas(usuarios[id].perfil, nivelActStr, objetivoStr).Success?
    ensures CompletarObjetivoAsWritten(usuarios, id, nivelActStr, objetivoStr, pila) == Failure(RecursionOverflow)
    decreases pila
  {
    var p := usuarios[id].perfil;
    if pila > 0 {
      CicloDesbordado(usuarios, id, p.nivelActividad, p.objetivo, pila - 1);
    }
  }

  /**
   * The same cycle from the step operations: with the basic, activity and
   * preference steps stored as done, a marcar*Complet* as written that leaves
   * all four steps done never succeeds.
   */
  lemma MarcarSinSalida(usuarios: map<string, UsuarioDoc>, id: string, paso: Paso, pila: nat)
    requires id in usuarios && usuarios[id].perfil.id == id
    requires usuarios[id].perfil.basicosCompletos && usuarios[id].perfil.actividadCompleta
    requires usuarios[id].perfil.preferenciasCompletas
    requires TodosLosPasos(ConPaso(usuarios[id].perfil, paso))
    ensures MarcarAsWritten(usuarios, id, paso, pila).Failure?
  {
    var p := usuarios[id].perfil;
    CicloSinSalida(usuarios, id, p.nivelActividad, p.objetivo, pila);
  }

  /** The one-pass marcar*Complet* saves perfilCompleto as true in the same situation. */
  lemma MarcarCompletaElPerfil(usuarios: map<string, UsuarioDoc>, id: string, paso: Paso)
    requires id in usuarios
    requires TodosLosPasos(ConPaso(usuarios[id].perfil, paso))
    ensures MarcarSpec(usuarios, id, paso).Success?
    ensures MarcarSpec(usuarios, id, paso).value[id].perfil.perfilCompleto
  {
  }

  /**
   * Below the three other steps, completarObjetivo as written does return,
   * but the save at its end puts back the objective flag the user had: the
   * flag set by marcarObjetivoCompleto on its own copy is lost.
   */
  lemma FlagDeObjetivoPerdido(usuarios: map<string, UsuarioDoc>, id: string, nivelActStr: Option<string>,
                              objetivoStr: Option<string>, pila: nat)
    requires id in usuarios && pila > 0
    requires !(usuarios[id].perfil.basicosCompletos && usuarios[id].perfil.actividadCompleta && usuarios[id].perfil.preferenciasCompletas)
    requires Metas(usuarios[id].perfil, nivelActStr, objetivoStr).Success?
    ensures CompletarObjetivoAsWritten(usuarios, id, nivelActStr, objetivoStr, pila).Success?
    ensures CompletarObjetivoAsWritten(usuarios, id, nivelActStr, objetivoStr, pila).value[id].perfil.objetivoCompleto
            == usuarios[id].perfil.objetivoCompleto
    ensures CompletarObjetivoSpec(usuarios, id, nivelActStr, objetivoStr).Success?
    ensures CompletarObjetivoSpec(usuarios, id, nivelActStr, objetivoStr).value[id].perfil.objetivoCompleto
  {
  }

  /** A user a step away from the objective, from its own profile data, shows the lost flag. */
  lemma FlagDeObjetivoPerdidoEjemplo()
    ensures var p := Perfil("u1", None, None, Some(30), Some("F"), Some(165), Some(60), None, true, Some("MODERADA"),
                            false, None, false, Some([]), Some([]), true, 0.0, None, false);
      var usuarios := map["u1" := UsuarioDoc(p, [], [])];
      && CompletarObjetivoAsWritten(usuarios, "u1", Some("moderada"), Some("mantener"), 8).Success?
      && !CompletarObjetivoAsWritten(usuarios, "u1", Some("moderada"), Some("mantener"), 8).value["u1"].perfil.objetivoCompleto
      && CompletarObjetivoSpec(usuarios, "u1", Some("moderada"), Some("mantener")).Success?
      && CompletarObjetivoSpec(usuarios, "u1", Some("moderada"), Some("mantener")).value["u1"].perfil.objetivoCompleto
  {
    var p := Perfil("u1", None, None, Some(30), Some("F"), Some(165), Some(60), None, true, Some("MODERADA"),
                    false, None, false, Some([]), Some([]), true, 0.0, None, false);
    var usuarios := map["u1" := UsuarioDoc(p, [], [])];
    Text.UpperOfConstantName("MODERADA");
    Text.UpperOfConstantName("MANTENER");
    assert Text.Lower("MODERADA") == "moderada";
    assert Text.Lower("MANTENER") == "mantener";
    FlagDeObjetivoPerdido(usuarios, "u1", Some("moderada"), Some("mantener"), 8);
  }

  /** With the three other steps done, the one-pass completarObjetivo completes the profile. */
  lemma CompletarCompletaElPerfil(usuarios: map<string, UsuarioDoc>, id: string, nivelActStr: Option<string>,
                                  objetivoStr: Option<string>)
    requires id in usuarios
    requires usuarios[id].perfil.basicosCompletos && usuarios[id].perfil.actividadCompleta
    requires usuarios[id].perfil.preferenciasCompletas
    requires Metas(usuarios[id].perfil, nivelActStr, objetivoStr).Success?
    ensures CompletarObjetivoSpec(usuarios, id, nivelActStr, objetivoStr).Success?
    ensures CompletarObjetivoSpec(usuarios, id, nivelActStr, objetivoStr).value[id].perfil.perfilCompleto
  {
  }

  // ---------------------------------------------------------------------
  // The service

  class PerfilService {
    const usuarioRepo: UsuarioRepository

    constructor (usuarioRepo: UsuarioRepository)
      ensures this.usuarioRepo == usuarioRepo
    {
      this.usuarioRepo := usuarioRepo;
    }

    /** revisarPerfilCompleto(u), one pass. */
    static method RevisarPerfilCompleto(u: Usuario)
      modifies u
      ensures u.Datos() == Revisar(old(u.Datos()))
      ensures u.historialDeDias == old(u.historialDeDias) && u.recetas == old(u.recetas)
    {
      if u.basicosCompletos && u.actividadCompleta && u.objetivoCompleto && u.preferenciasCompletas {
        u.perfilCompleto := true;
      } else {
        u.perfilCompleto := false;
      }
    }

    /** Lines 36-38 of completarObjetivo on the loaded user: the objective, the goals, the step flag and the review. */
    static method FijarObjetivo(u: Usuario, objetivoStr: Option<string>, m: Meta)
      modifies u
      ensures u.Datos() == Revisar(AplicarMetasSpec(old(u.Datos()).(objetivo := objetivoStr), m.calorias, m.macros).(objetivoCompleto := true))
      ensures u.historialDeDias == old(u.historialDeDias) && u.recetas == old(u.recetas)
    {
      u.objetivo := objetivoStr;
      u.AplicarMetas(m.calorias, m.macros);
      u.objetivoCompleto := true;
      RevisarPerfilCompleto(u);
    }

    /** completarObjetivo(usuarioId, nivelActStr, objetivoStr), the objective flag set on the saved copy. */
    method CompletarObjetivo(usuarioId: string, nivelActStr: Option<string>, objetivoStr: Option<string>)
      returns (r: Result<UsuarioDoc>)
      requires usuarioRepo.Valid()
      modifies usuarioRepo
      ensures usuarioRepo.Valid()
      ensures match CompletarObjetivoSpec(old(usuarioRepo.usuarios), usuarioId, nivelActStr, objetivoStr)
        case Success(s) => usuarioRepo.usuarios == s && r == Success(s[usuarioId])
        case Failure(e) => usuarioRepo.usuarios == old(usuarioRepo.usuarios) && r == Failure(e)
    {
      var found := usuarioRepo.FindById(usuarioId);
      if found.None? {
        return Failure(NotFound);
      }
      var u := found.value;
      ghost var u0 := u.Doc();
      ghost var h := u.historialDeDias;
      var metas := Metas(u.Datos(), nivelActStr, objetivoStr);
      if metas.Failure? {
        return Failure(metas.error);
      }
      FijarObjetivo(u, objetivoStr, metas.value);
      assert u.Datos() == Completar(u0.perfil, nivelActStr, objetivoStr).value;
      assert Docs(h) == u0.historialDeDias;
      ghost var v := u.Doc();
      assert v == u0.(perfil := Completar(u0.perfil, nivelActStr, objetivoStr).value);
      usuarioRepo.Save(u);
      assert usuarioRepo.usuarios == old(usuarioRepo.usuarios)[usuarioId := v];
      r := Success(usuarioRepo.usuarios[usuarioId]);
    }

    /** recalcularMetas(usuarioId): completarObjetivo on the stored level and objective, when both are set. */
    method RecalcularMetas(usuarioId: string) returns (r: Result<UsuarioDoc>)
      requires usuarioRepo.Valid()
      modifies usuarioRepo
      ensures usuarioRepo.Valid()
      ensures match RecalcularMetasSpec(old(usuarioRepo.usuarios), usuarioId)
        case Success(s) => usuarioRepo.usuarios == s.usuarios && r == Success(s.devuelto)
        case Failure(e) => usuarioRepo.usuarios == old(usuarioRepo.usuarios) && r == Failure(e)
    {
      var found := usuarioRepo.FindById(usuarioId);
      if found.None? {
        return Failure(NotFound);
      }
      var u := found.value;
      if u.nivelActividad.Some? && u.objetivo.Some? {
        var hecho := CompletarObjetivo(usuarioId, u.nivelActividad, u.objetivo);
        if hecho.Failure? {
          return Failure(hecho.error);
        }
      }
      r := Success(u.Doc());
    }

    /** The step flag set on the loaded user, then the review. */
    static method FijarPaso(u: Usuario, paso: Paso)
      modifies u
      ensures u.Datos() == Marcar(old(u.Datos()), paso)
      ensures u.historialDeDias == old(u.historialDeDias) && u.recetas == old(u.recetas)
    {
      match paso {
        case Basicos => u.basicosCompletos := true;
        case Actividad => u.actividadCompleta := true;
        case Objetivo => u.objetivoCompleto := true;
      }
      RevisarPerfilCompleto(u);
    }

    /** The body shared by the three marcar*Complet* operations: load, set the flag, review, save. */
    method MarcarPaso(usuarioId: string, paso: Paso) returns (r: Result<UsuarioDoc>)
      requires usuarioRepo.Valid()
      modifies usuarioRepo
      ensures usuarioRepo.Valid()
      ensures match MarcarSpec(old(usuarioRepo.usuarios), usuarioId, paso)
        case Success(s) => usuarioRepo.usuarios == s && r == Success(s[usuarioId])
        case Failure(e) => usuarioRepo.usuarios == old(usuarioRepo.usuarios) && r == Failure(e)
    {
      var found := usuarioRepo.FindById(usuarioId);
      if found.None? {
        return Failure(NotFound);
      }
      var u := found.value;
      ghost var u0 := u.Doc();
      ghost var h := u.historialDeDias;
      FijarPaso(u, paso);
      assert Docs(h) == u0.historialDeDias;
      ghost var v := u.Doc();
      assert v == u0.(perfil := Marcar(u0.perfil, paso));
      usuarioRepo.Save(u);
      assert usuarioRepo.usuarios == old(usuarioRepo.usuarios)[usuarioId := v];
      r := Success(usuarioRepo.usuarios[usuarioId]);
    }

    /** marcarBasicosCompletos(usuarioId). */
    method MarcarBasicosCompletos(usuarioId: string) returns (r: Result<UsuarioDoc>)
      requires usuarioRepo.Valid()
      modifies usuarioRepo
      ensures usuarioRepo.Valid()
      ensures match MarcarSpec(old(usuarioRepo.usuarios), usuarioId, Basicos)
        case Success(s) => usuarioRepo.usuarios == s && r == Success(s[usuarioId])
        case Failure(e) => usuarioRepo.usuarios == old(usuarioRepo.usuarios) && r == Failure(e)
    {
      r := MarcarPaso(usuarioId, Basicos);
    }

    /** marcarActividadCompleta(usuarioId). */
    method MarcarActividadCompleta(usuarioId: string) returns (r: Result<UsuarioDoc>)
      requires usuarioRepo.Valid()
      modifies usuarioRepo
      ensures usuarioRepo.Valid()
      ensures match MarcarSpec(old(usuarioRepo.usuarios), usuarioId, Actividad)
        case Success(s) => usuarioRepo.usuarios == s && r == Success(s[usuarioId])
        case Failure(e) => usuarioRepo.usuarios == old(usuarioRepo.usuarios) && r == Failure(e)
    {
      r := MarcarPaso(usuarioId, Actividad);
    }

    /** marcarObjetivoCompleto(usuarioId). */
    method MarcarObjetivoCompleto(usuarioId: string) returns (r: Result<UsuarioDoc>)
      requires usuarioRepo.Valid()
      modifies usuarioRepo
      ensures usuarioRepo.Valid()
      ensures match MarcarSpec(old(usuarioRepo.usuarios), usuarioId, Objetivo)
        case Success(s) => usuarioRepo.usuarios == s && r == Success(s[usuarioId])
        case Failure(e) => usuarioRepo.usuarios == old(usuarioRepo.usuarios) && r == Failure(e)
    {
      r := MarcarPaso(usuarioId, Objetivo);
    }
  }
}
