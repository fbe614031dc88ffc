/**
 * UsuarioService: the onboarding writes (the whole profile at once, the basic
 * data, the activity level, the preferences), the profile read, and the list
 * of saved recipe ids, kept in first-occurrence order without repetition.
 */
module UsuarioService {
  import opened Wrappers
  import opened Modelos
  import opened Mongo
  import opened Usuario
  import opened Repositories
  import CatalogoRecetasService

  // ---------------------------------------------------------------------
  // The saved-recipe list

  /** No id appears twice. */
  predicate NoDup(s: seq<nat>) {
    forall i, j :: 0 <= i < j < |s| ==> s[i] != s[j]
  }

  /** The position of the first occurrence of x in s. */
  function IndexOf(s: seq<nat>, x: nat): (k: nat)
    requires x in s
    ensures k < |s| && s[k] == x && forall j :: 0 <= j < k ==> s[j] != x
  {
    if s[0] == x then 0 else 1 + IndexOf(s[1..], x)
  }

  /** Set.add on an insertion-ordered set: x goes at the end unless it is already there. */
  function AddUnique(s: seq<nat>, x: nat): (r: seq<nat>)
    ensures s <= r && x in r
    ensures forall y :: y in r <==> y in s || y == x
    ensures NoDup(s) ==> NoDup(r)
  {
    if x in s then s else s + [x]
  }

  /** Adding the elements of xs one after the other. */
  function AddAll(s: seq<nat>, xs: seq<nat>): seq<nat>
    decreases |xs|
  {
    if |xs| == 0 then s else AddUnique(AddAll(s, xs[..|xs| - 1]), xs[|xs| - 1])
  }

  /** new LinkedHashSet<>(s). */
  function Dedup(s: seq<nat>): seq<nat> {
    AddAll([], s)
  }

  /** Adding keeps what was there in front, adds exactly the new elements and repeats none. */
  lemma {:induction false} AddAllOutcome(s: seq<nat>, xs: seq<nat>)
    ensures s <= AddAll(s, xs)
    ensures forall y :: y in AddAll(s, xs) <==> y in s || y in xs
    ensures NoDup(s) ==> NoDup(AddAll(s, xs))
    decreases |xs|
  {
    if |xs| > 0 {
      var init := xs[..|xs| - 1];
      AddAllOutcome(s, init);
      assert xs == init + [xs[|xs| - 1]];
      assert forall y :: y in xs <==> y in init || y == xs[|xs| - 1];
    }
  }

  /** The elements after adding are the old ones and the added ones. */
  lemma {:induction false} AddAllMembers(s: seq<nat>, xs: seq<nat>)
    ensures forall y :: y in AddAll(s, xs) <==> y in s || y in xs
    decreases |xs|
  {
    if |xs| > 0 {
      var init := xs[..|xs| - 1];
      AddAllMembers(s, init);
      assert xs == init + [xs[|xs| - 1]];
    }
  }

  /** Adding xs then ys is adding xs + ys. */
  lemma {:induction false} AddAllConcat(s: seq<nat>, xs: seq<nat>, ys: seq<nat>)
    ensures AddAll(AddAll(s, xs), ys) == AddAll(s, xs + ys)
    decreases |ys|
  {
    if |ys| == 0 {
      assert xs + ys == xs;
    } else {
      var init := ys[..|ys| - 1];
      AddAllConcat(s, xs, init);
      assert (xs + ys)[..|xs + ys| - 1] == xs + init;
    }
  }

  /**
   * new LinkedHashSet<>(s) holds the elements of s, once each, in the order
   * of their first occurrence in s; a list without repetitions comes back as it was.
   */
  lemma DedupOutcome(s: seq<nat>)
    ensures NoDup(Dedup(s))
    ensures forall y :: y in Dedup(s) <==> y in s
    ensures forall i, j :: 0 <= i < j < |Dedup(s)| ==> IndexOf(s, Dedup(s)[i]) < IndexOf(s, Dedup(s)[j])
    ensures NoDup(s) ==> Dedup(s) == s
  {
    AddAllOutcome([], s);
    DedupOrder(s);
    DedupOfNoDup(s);
  }

  lemma {:induction false} DedupOrder(s: seq<nat>)
    ensures forall y :: y in Dedup(s) ==> y in s
    ensures forall i, j :: 0 <= i < j < |Dedup(s)| ==> IndexOf(s, Dedup(s)[i]) < IndexOf(s, Dedup(s)[j])
    decreases |s|
  {
    AddAllMembers([], s);
    if |s| > 0 {
      var init, x := s[..|s| - 1], s[|s| - 1];
      DedupOrder(init);
      AddAllMembers([], init);
      assert s == init + [x];
      var d, d0 := Dedup(s), Dedup(init);
      assert d == AddUnique(d0, x);
      FirstIndexAfterAppend(init, x);
      forall i, j | 0 <= i < j < |d| ensures IndexOf(s, d[i]) < IndexOf(s, d[j]) {
        if j < |d0| {
          assert d[i] == d0[i] && d[j] == d0[j];
          assert d0[i] in init && d0[j] in init;
        } else {
          assert x !in init && d[j] == x && d[i] == d0[i] && d0[i] in init;
        }
      }
    }
  }

  lemma {:induction false} DedupOfNoDup(s: seq<nat>)
    ensures NoDup(s) ==> Dedup(s) == s
    decreases |s|
  {
    if |s| > 0 && NoDup(s) {
      var init, x := s[..|s| - 1], s[|s| - 1];
      assert NoDup(init) && x !in init;
      DedupOfNoDup(init);
      assert s == init + [x];
    }
  }

  lemma FirstIndexAfterAppend(s: seq<nat>, x: nat)
    ensures forall y :: y in s ==> IndexOf(s + [x], y) == IndexOf(s, y)
    ensures x !in s ==> IndexOf(s + [x], x) == |s|
  {
    forall y | y in s ensures IndexOf(s + [x], y) == IndexOf(s, y) {
      IndexOfPrefix(s, [x], y);
    }
    if x !in s {
      assert (s + [x])[|s|] == x;
    }
  }

  lemma {:induction false} IndexOfPrefix(s: seq<nat>, t: seq<nat>, y: nat)
    requires y in s
    ensures IndexOf(s + t, y) == IndexOf(s, y)
    decreases |s|
  {
    if s[0] != y {
      assert (s + t)[1..] == s[1..] + t;
      IndexOfPrefix(s[1..], t, y);
    }
  }

  /**
   * guardarRecetasUsuario's list: the old ids de-duplicated, then the new ids
   * not yet present, in input order, which is the de-duplication of the two
   * lists one after the other.
   */
  lemma RecetasTrasGuardar(viejas: seq<nat>, nuevas: seq<nat>)
    ensures AddAll(Dedup(viejas), nuevas) == Dedup(viejas + nuevas)
    ensures Dedup(viejas) <= AddAll(Dedup(viejas), nuevas)
    ensures NoDup(AddAll(Dedup(viejas), nuevas))
    ensures forall y :: y in AddAll(Dedup(viejas), nuevas) <==> y in viejas || y in nuevas
  {
    AddAllConcat([], viejas, nuevas);
    DedupOutcome(viejas + nuevas);
    AddAllOutcome(Dedup(viejas), nuevas);
  }

  /** List.remove(Object): the list without the first occurrence of x. */
  function RemoveFirst(s: seq<nat>, x: nat): seq<nat>
    decreases |s|
  {
    if |s| == 0 then []
    else if s[0] == x then s[1..]
    else [s[0]] + RemoveFirst(s[1..], x)
  }

  /** remove(x) takes out the first occurrence of x and nothing else; without one the list is unchanged. */
  lemma {:induction false} RemoveFirstSplice(s: seq<nat>, x: nat)
    ensures x !in s ==> RemoveFirst(s, x) == s
    ensures x in s ==> RemoveFirst(s, x) == s[..IndexOf(s, x)] + s[IndexOf(s, x) + 1..]
    decreases |s|
  {
    if |s| > 0 {
      if s[0] == x {
        assert s[..0] == [];
      } else {
        RemoveFirstSplice(s[1..], x);
        if x in s {
          assert x in s[1..];
          var k := IndexOf(s[1..], x);
          assert IndexOf(s, x) == k + 1;
          assert s[..k + 1] == [s[0]] + s[1..][..k];
          assert s[k + 2..] == s[1..][k + 1..];
        } else {
          assert s == [s[0]] + s[1..];
        }
      }
    }
  }

  /** Taking one element out of a list without repetitions leaves one without repetitions, and without that element. */
  lemma {:induction false} SpliceNoDup(s: seq<nat>, k: nat)
    requires NoDup(s) && k < |s|
    ensures NoDup(s[..k] + s[k + 1..]) && s[k] !in s[..k] + s[k + 1..]
  {
    var r := s[..k] + s[k + 1..];
    assert forall i :: 0 <= i < |r| ==> r[i] == s[if i < k then i else i + 1];
  }

  /** remove(x) takes one occurrence of x out of the list's contents, and nothing else. */
  lemma {:induction false} RemoveFirstMultiset(s: seq<nat>, x: nat)
    ensures multiset(RemoveFirst(s, x)) == multiset(s) - multiset{x}
    decreases |s|
  {
    if |s| > 0 {
      assert s == [s[0]] + s[1..];
      assert multiset(s) == multiset{s[0]} + multiset(s[1..]);
      if s[0] != x {
        RemoveFirstMultiset(s[1..], x);
        assert multiset(RemoveFirst(s, x)) == multiset{s[0]} + (multiset(s[1..]) - multiset{x});
      }
    }
  }

  /** On a list without repetitions, remove(x) leaves one without repetitions and without x. */
  lemma RemoveFirstNoDup(s: seq<nat>, x: nat)
    requires NoDup(s)
    ensures NoDup(RemoveFirst(s, x)) && x !in RemoveFirst(s, x)
  {
    RemoveFirstSplice(s, x);
    if x in s {
      SpliceNoDup(s, IndexOf(s, x));
    }
  }

  // ---------------------------------------------------------------------
  // The profile writes

  /** crearOActualizarPerfil's ten setters. */
  function ConPerfilDTO(p: Perfil, dto: PerfilUsuarioDTO): Perfil {
    p.(nombre := dto.nombre, edad := dto.edad, sexo := dto.sexo, alturaCm := dto.alturaCm, pesoKg := dto.pesoKg,
       nivelActividad := dto.nivelActividad, objetivo := dto.objetivo, horaInicioDia := dto.horaInicioDia,
       preferencias := dto.preferencias, alergias := dto.alergias)
  }

  /** actualizarBasicos's setters: the six basic fields and the step flag. */
  function ConBasicos(p: Perfil, dto: BasicosDTO): Perfil {
    p.(nombre := dto.nombre, edad := dto.edad, sexo := dto.sexo, pesoKg := dto.pesoKg, alturaCm := dto.alturaCm,
       horaInicioDia := dto.horaInicioDia, basicosCompletos := true)
  }

  /** actualizarNivelActividad's setters. */
  function ConNivel(p: Perfil, nivel: Option<string>): Perfil {
    p.(nivelActividad := nivel, actividadCompleta := true)
  }

  /** actualizarPreferencias's setters. */
  function ConPreferencias(p: Perfil, dto: PreferenciasDTO): Perfil {
    p.(preferencias := dto.preferencias, alergias := dto.alergias, preferenciasCompletas := true)
  }

  /** The profile fields none of the profile writes touch: identity, goals and the derived flag. */
  predicate MismosObjetivos(p: Perfil, q: Perfil) {
    q.id == p.id && q.email == p.email && q.caloriasObjetivo == p.caloriasObjetivo
    && q.macrosObjetivo == p.macrosObjetivo && q.perfilCompleto == p.perfilCompleto
  }

  /** The four step flags are those of p. */
  predicate MismosPasos(p: Perfil, q: Perfil) {
    q.basicosCompletos == p.basicosCompletos && q.actividadCompleta == p.actividadCompleta
    && q.objetivoCompleto == p.objetivoCompleto && q.preferenciasCompletas == p.preferenciasCompletas
  }

  /**
   * Each write stores what it is given and sets its own step flag, touches no
   * other step flag, and leaves the identity, the goals and perfilCompleto alone
   * (the service does not review the profile); crearOActualizarPerfil sets no flag.
   */
  lemma EscriturasDelPerfil(p: Perfil, dto: PerfilUsuarioDTO, b: BasicosDTO, nivel: Option<string>, pr: PreferenciasDTO)
    ensures var q := ConPerfilDTO(p, dto);
      && MismosObjetivos(p, q) && MismosPasos(p, q)
      && q.nombre == dto.nombre && q.edad == dto.edad && q.sexo == dto.sexo && q.alturaCm == dto.alturaCm
      && q.pesoKg == dto.pesoKg && q.nivelActividad == dto.nivelActividad && q.objetivo == dto.objetivo
      && q.horaInicioDia == dto.horaInicioDia && q.preferencias == dto.preferencias && q.alergias == dto.alergias
    ensures var q := ConBasicos(p, b);
      && MismosObjetivos(p, q) && q.basicosCompletos
      && q.actividadCompleta == p.actividadCompleta && q.objetivoCompleto == p.objetivoCompleto
      && q.preferenciasCompletas == p.preferenciasCompletas
      && q.nombre == b.nombre && q.edad == b.edad && q.sexo == b.sexo && q.pesoKg == b.pesoKg
      && q.alturaCm == b.alturaCm && q.horaInicioDia == b.horaInicioDia
      && q.nivelActividad == p.nivelActividad && q.objetivo == p.objetivo
      && q.preferencias == p.preferencias && q.alergias == p.alergias
    ensures var q := ConNivel(p, nivel);
      && q.nivelActividad == nivel && q.actividadCompleta
      && q.(nivelActividad := p.nivelActividad, actividadCompleta := p.actividadCompleta) == p
    ensures var q := ConPreferencias(p, pr);
      && q.preferencias == pr.preferencias && q.alergias == pr.alergias && q.preferenciasCompletas
      && q.(preferencias := p.preferencias, alergias := p.alergias, preferenciasCompletas := p.preferenciasCompletas) == p
  {
  }

  /** The three onboarding writes touch disjoint fields: they can come in any order, and repeating one changes nothing. */
  lemma EscriturasConmutan(p: Perfil, b: BasicosDTO, nivel: Option<string>, pr: PreferenciasDTO)
    ensures ConNivel(ConBasicos(p, b), nivel) == ConBasicos(ConNivel(p, nivel), b)
    ensures ConPreferencias(ConBasicos(p, b), pr) == ConBasicos(ConPreferencias(p, pr), b)
    ensures ConPreferencias(ConNivel(p, nivel), pr) == ConNivel(ConPreferencias(p, pr), nivel)
    ensures ConBasicos(ConBasicos(p, b), b) == ConBasicos(p, b)
    ensures ConNivel(ConNivel(p, nivel), nivel) == ConNivel(p, nivel)
    ensures ConPreferencias(ConPreferencias(p, pr), pr) == ConPreferencias(p, pr)
  {
  }

  // ---------------------------------------------------------------------
  // The operations on the stored users

  /** The stored users with user uid's profile replaced. */
  function Escribir(usuarios: map<string, UsuarioDoc>, uid: string, q: Perfil): map<string, UsuarioDoc>
    requires uid in usuarios
  {
    usuarios[uid := usuarios[uid].(perfil := q)]
  }

  /** crearOActualizarPerfil(uid, dto): the stored user, or a new one with that id, with the ten fields written. */
  function CrearOActualizarSpec(usuarios: map<string, UsuarioDoc>, uid: string, dto: PerfilUsuarioDTO): map<string, UsuarioDoc> {
    var u := if uid in usuarios then usuarios[uid] else NuevoUsuario(uid);
    usuarios[uid := u.(perfil := ConPerfilDTO(u.perfil, dto))]
  }

  function BasicosSpec(usuarios: map<string, UsuarioDoc>, uid: string, dto: BasicosDTO): Result<map<string, UsuarioDoc>> {
    if uid !in usuarios then Failure(NotFound) else Success(Escribir(usuarios, uid, ConBasicos(usuarios[uid].perfil, dto)))
  }

  function NivelSpec(usuarios: map<string, UsuarioDoc>, uid: string, nivel: Option<string>): Result<map<string, UsuarioDoc>> {
    if uid !in usuarios then Failure(NotFound) else Success(Escribir(usuarios, uid, ConNivel(usuarios[uid].perfil, nivel)))
  }

  function PreferenciasSpec(usuarios: map<string, UsuarioDoc>, uid: string, dto: PreferenciasDTO): Result<map<string, UsuarioDoc>> {
    if uid !in usuarios then Failure(NotFound) else Success(Escribir(usuarios, uid, ConPreferencias(usuarios[uid].perfil, dto)))
  }

  /**
   * crearOActualizarPerfil creates an unknown user with every step pending and
   * no goals, and otherwise keeps the user's days, recipes, flags and goals.
   */
  lemma CrearOActualizarOutcome(usuarios: map<string, UsuarioDoc>, uid: string, dto: PerfilUsuarioDTO)
    ensures var s := CrearOActualizarSpec(usuarios, uid, dto);
      && s.Keys == usuarios.Keys + {uid}
      && (forall k :: k in usuarios && k != uid ==> s[k] == usuarios[k])
      && s[uid].perfil == ConPerfilDTO(if uid in usuarios then usuarios[uid].perfil else NuevoUsuario(uid).perfil, dto)
      && (uid in usuarios ==>
            && s[uid].historialDeDias == usuarios[uid].historialDeDias && s[uid].recetas == usuarios[uid].recetas
            && MismosPasos(usuarios[uid].perfil, s[uid].perfil) && MismosObjetivos(usuarios[uid].perfil, s[uid].perfil))
      && (uid !in usuarios ==>
            && s[uid].perfil.id == uid && s[uid].historialDeDias == [] && s[uid].recetas == []
            && !s[uid].perfil.basicosCompletos && !s[uid].perfil.actividadCompleta
            && !s[uid].perfil.objetivoCompleto && !s[uid].perfil.preferenciasCompletas
            && !s[uid].perfil.perfilCompleto && s[uid].perfil.macrosObjetivo.None?)
  {
  }

  /** Every write fails with NOT_FOUND on an unknown user and otherwise changes that user's profile alone. */
  lemma EscriturasSobreElAlmacen(usuarios: map<string, UsuarioDoc>, uid: string, b: BasicosDTO, nivel: Option<string>,
                                 pr: PreferenciasDTO)
    ensures uid !in usuarios ==>
      BasicosSpec(usuarios, uid, b) == Failure(NotFound) && NivelSpec(usuarios, uid, nivel) == Failure(NotFound)
      && PreferenciasSpec(usuarios, uid, pr) == Failure(NotFound)
    ensures uid in usuarios ==>
      forall r :: r in [BasicosSpec(usuarios, uid, b), NivelSpec(usuarios, uid, nivel), PreferenciasSpec(usuarios, uid, pr)] ==>
        && r.Success? && r.value.Keys == usuarios.Keys
        && (forall k :: k in usuarios && k != uid ==> r.value[k] == usuarios[k])
        && r.value[uid].historialDeDias == usuarios[uid].historialDeDias
        && r.value[uid].recetas == usuarios[uid].recetas
        && MismosObjetivos(usuarios[uid].perfil, r.value[uid].perfil)
  {
  }

  /** The stored users and catalog after guardarRecetasUsuario, and the recipes it returns. */
  datatype Guardado = Guardado(usuarios: map<string, UsuarioDoc>, docs: seq<Doc<Receta>>, nextId: nat,
                               devueltas: seq<Doc<Receta>>)

  /** The ids of the documents, in order; a document without one contributes nothing. */
  function IdsOf(l: seq<Doc<Receta>>): (r: seq<nat>)
    ensures |r| <= |l|
    ensures (forall i :: 0 <= i < |l| ==> l[i].id.Some?) ==> |r| == |l| && forall i :: 0 <= i < |l| ==> r[i] == l[i].id.value
    decreases |l|
  {
    if |l| == 0 then []
    else
      var last := l[|l| - 1];
      assert forall i :: 0 <= i < |l| - 1 ==> l[..|l| - 1][i] == l[i];
      IdsOf(l[..|l| - 1]) + (match last.id case Some(v) => [v] case None => [])
  }

  /** One more stored recipe adds its id to the set. */
  lemma AddAllStep(ids0: seq<nat>, l: seq<Doc<Receta>>, d: Doc<Receta>)
    requires d.id.Some?
    ensures AddAll(ids0, IdsOf(l + [d])) == AddUnique(AddAll(ids0, IdsOf(l)), d.id.value)
  {
    assert (l + [d])[..|l|] == l;
  }

  /** guardarRecetasUsuario(uid, nuevas) on the stored users and the recipe catalog. */
  function GuardarRecetasSpec(usuarios: map<string, UsuarioDoc>, docs: seq<Doc<Receta>>, nextId: nat, uid: string,
                              nuevas: seq<Doc<Receta>>): Result<Guardado>
  {
    if uid !in usuarios then Failure(NotFound)
    else
      var s := CatalogoRecetasService.SaveAllSpec(docs, nextId, nuevas);
      var u := usuarios[uid];
      var ids := AddAll(Dedup(u.recetas), IdsOf(s.lista));
      Success(Guardado(usuarios[uid := u.(recetas := ids)], s.docs, s.nextId,
                       CatalogoRecetasService.FindAllByIdsSpec(s.docs, ids)))
  }

  /**
   * guardarRecetasUsuario: the user's list becomes its old ids de-duplicated
   * followed by the ids of the stored recipes, new ones not repeated; every
   * listed id is of a stored recipe once the old ones are; nothing but that
   * list changes for the user; the returned recipes are the stored ones listed.
   */
  lemma GuardarRecetasOutcome(usuarios: map<string, UsuarioDoc>, docs: seq<Doc<Receta>>, nextId: nat, uid: string,
                              nuevas: seq<Doc<Receta>>)
    requires WellFormed(docs, nextId) && UniqueKeys(docs, CatalogoRecetasService.Titulo)
    requires forall i :: 0 <= i < |nuevas| ==> nuevas[i].id.None?
    ensures uid !in usuarios ==> GuardarRecetasSpec(usuarios, docs, nextId, uid, nuevas) == Failure(NotFound)
    ensures uid in usuarios ==>
      var g := GuardarRecetasSpec(usuarios, docs, nextId, uid, nuevas);
      var s := CatalogoRecetasService.SaveAllSpec(docs, nextId, nuevas);
      && g.Success?
      && (forall i :: 0 <= i < |s.lista| ==> s.lista[i].id.Some?)
      && g.value.usuarios == usuarios[uid := usuarios[uid].(recetas := g.value.usuarios[uid].recetas)]
      && g.value.usuarios[uid].recetas == Dedup(usuarios[uid].recetas + IdsOf(s.lista))
      && NoDup(g.value.usuarios[uid].recetas)
      && |IdsOf(s.lista)| == |nuevas|
      && (forall y :: y in IdsOf(s.lista) ==> y in g.value.usuarios[uid].recetas)
      && (forall y :: y in g.value.usuarios[uid].recetas ==> y in usuarios[uid].recetas || y in IdsOf(s.lista))
      && (forall d :: d in g.value.devueltas <==> d in g.value.docs && d.id.Some? && d.id.value in g.value.usuarios[uid].recetas)
  {
    if uid in usuarios {
      CatalogoRecetasService.SaveAllKeepsStore(docs, nextId, nuevas);
      CatalogoRecetasService.SaveAllLista(docs, nextId, nuevas);
      var s := CatalogoRecetasService.SaveAllSpec(docs, nextId, nuevas);
      RecetasTrasGuardar(usuarios[uid].recetas, IdsOf(s.lista));
    }
  }

  /** eliminarRecetaUsuario(uid, recetaId) on the stored users: saved only when the id was listed. */
  function EliminarSpec(usuarios: map<string, UsuarioDoc>, uid: string, recetaId: nat): Result<map<string, UsuarioDoc>> {
    if uid !in usuarios then Failure(NotFound)
    else if recetaId in usuarios[uid].recetas then
      Success(usuarios[uid := usuarios[uid].(recetas := RemoveFirst(usuarios[uid].recetas, recetaId))])
    else Success(usuarios)
  }

  // ---------------------------------------------------------------------
  // The service

  class UsuarioService {
    const usuarioRepo: UsuarioRepository
    const catalogo: CatalogoRecetasService.CatalogoRecetasService

    constructor (usuarioRepo: UsuarioRepository, catalogo: CatalogoRecetasService.CatalogoRecetasService)
      ensures this.usuarioRepo == usuarioRepo && this.catalogo == catalogo
    {
      this.usuarioRepo := usuarioRepo;
      this.catalogo := catalogo;
    }

    /** crearOActualizarPerfil(uid, dto). */
    method CrearOActualizarPerfil(uid: string, dto: PerfilUsuarioDTO) returns (r: UsuarioDoc)
      requires usuarioRepo.Valid()
      modifies usuarioRepo
      ensures usuarioRepo.Valid()
      ensures usuarioRepo.usuarios == CrearOActualizarSpec(old(usuarioRepo.usuarios), uid, dto)
      ensures r == usuarioRepo.usuarios[uid]
    {
      var found := usuarioRepo.FindById(uid);
      var u: Usuario;
      if found.Some? {
        u := found.value;
      } else {
        u := new Usuario.Nuevo(uid);
      }
      ghost var u0 := u.Doc();
      ghost var h := u.historialDeDias;
      AsignarPerfil(u, dto);
      assert Docs(h) == u0.historialDeDias;
      ghost var v := u.Doc();
      assert v == u0.(perfil := ConPerfilDTO(u0.perfil, dto));
      usuarioRepo.Save(u);
      assert usuarioRepo.usuarios == old(usuarioRepo.usuarios)[uid := v];
      r := usuarioRepo.usuarios[uid];
    }

    /** Lines 64-73 of crearOActualizarPerfil on the loaded or new user. */
    static method AsignarPerfil(u: Usuario, dto: PerfilUsuarioDTO)
      modifies u
      ensures u.Datos() == ConPerfilDTO(old(u.Datos()), dto)
      ensures u.historialDeDias == old(u.historialDeDias) && u.recetas == old(u.recetas)
    {
      AsignarPersona(u, dto.nombre, dto.edad, dto.sexo);
      AsignarMedidas(u, dto.alturaCm, dto.pesoKg, dto.horaInicioDia);
      AsignarNivelYObjetivo(u, dto.nivelActividad, dto.objetivo);
      AsignarListas(u, dto.preferencias, dto.alergias);
    }

    /** Lines 109-115 of actualizarBasicos. */
    static method AsignarBasicos(u: Usuario, dto: BasicosDTO)
      modifies u
      ensures u.Datos() == ConBasicos(old(u.Datos()), dto)
      ensures u.historialDeDias == old(u.historialDeDias) && u.recetas == old(u.recetas)
    {
      AsignarPersona(u, dto.nombre, dto.edad, dto.sexo);
      AsignarMedidas(u, dto.alturaCm, dto.pesoKg, dto.horaInicioDia);
      u.basicosCompletos := true;
    }

    /** Lines 128-129 of actualizarNivelActividad. */
    static method AsignarNivel(u: Usuario, nivel: Option<string>)
      modifies u
      ensures u.Datos() == ConNivel(old(u.Datos()), nivel)
      ensures u.historialDeDias == old(u.historialDeDias) && u.recetas == old(u.recetas)
    {
      u.nivelActividad := nivel;
      u.actividadCompleta := true;
    }

    /** Lines 155-157 of actualizarPreferencias. */
    static method AsignarPreferencias(u: Usuario, dto: PreferenciasDTO)
      modifies u
      ensures u.Datos() == ConPreferencias(old(u.Datos()), dto)
      ensures u.historialDeDias == old(u.historialDeDias) && u.recetas == old(u.recetas)
    {
      AsignarListas(u, dto.preferencias, dto.alergias);
      u.preferenciasCompletas := true;
    }

    // The setters, a few at a time.

    static method AsignarPersona(u: Usuario, nombre: Option<string>, edad: Option<int>, sexo: Option<string>)
      modifies u
      ensures u.Datos() == old(u.Datos()).(nombre := nombre, edad := edad, sexo := sexo)
      ensures u.historialDeDias == old(u.historialDeDias) && u.recetas == old(u.recetas)
    {
      u.nombre, u.edad, u.sexo := nombre, edad, sexo;
    }

    static method AsignarMedidas(u: Usuario, alturaCm: Option<int>, pesoKg: Option<int>, horaInicioDia: Option<TimeOfDay>)
      modifies u
      ensures u.Datos() == old(u.Datos()).(alturaCm := alturaCm, pesoKg := pesoKg, horaInicioDia := horaInicioDia)
      ensures u.historialDeDias == old(u.historialDeDias) && u.recetas == old(u.recetas)
    {
      u.alturaCm, u.pesoKg, u.horaInicioDia := alturaCm, pesoKg, horaInicioDia;
    }

    static method AsignarNivelYObjetivo(u: Usuario, nivel: Option<string>, objetivo: Option<string>)
      modifies u
      ensures u.Datos() == old(u.Datos()).(nivelActividad := nivel, objetivo := objetivo)
      ensures u.historialDeDias == old(u.historialDeDias) && u.recetas == old(u.recetas)
    {
      u.nivelActividad, u.objetivo := nivel, objetivo;
    }

    static method AsignarListas(u: Usuario, preferencias: Option<seq<string>>, alergias: Option<seq<string>>)
      modifies u
      ensures u.Datos() == old(u.Datos()).(preferencias := preferencias, alergias := alergias)
      ensures u.historialDeDias == old(u.historialDeDias) && u.recetas == old(u.recetas)
    {
      u.preferencias, u.alergias := preferencias, alergias;
    }

    /** obtenerPerfil(uid). */
    method ObtenerPerfil(uid: string) returns (r: Result<Usuario>)
      ensures r.Failure? <==> uid !in usuarioRepo.usuarios
      ensures r.Failure? ==> r.error == NotFound
      ensures r.Success? ==> fresh(r.value) && r.value.Valid() && r.value.Doc() == usuarioRepo.usuarios[uid]
      ensures r.Success? ==> forall x :: x in r.value.historialDeDias ==> fresh(x)
    {
      var found := usuarioRepo.FindById(uid);
      if found.None? {
        return Failure(NotFound);
      }
      r := Success(found.value);
    }

    /** actualizarBasicos(uid, dto). */
    method ActualizarBasicos(uid: string, dto: BasicosDTO) returns (r: Result<UsuarioDoc>)
      requires usuarioRepo.Valid()
      modifies usuarioRepo
      ensures usuarioRepo.Valid()
      ensures match BasicosSpec(old(usuarioRepo.usuarios), uid, dto)
        case Success(s) => usuarioRepo.usuarios == s && r == Success(s[uid])
        case Failure(e) => usuarioRepo.usuarios == old(usuarioRepo.usuarios) && r == Failure(e)
    {
      var found := ObtenerPerfil(uid);
      if found.Failure? {
        return Failure(found.error);
      }
      var u := found.value;
      ghost var u0 := u.Doc();
      ghost var h := u.historialDeDias;
      AsignarBasicos(u, dto);
      assert Docs(h) == u0.historialDeDias;
      ghost var v := u.Doc();
      assert v == u0.(perfil := ConBasicos(u0.perfil, dto));
      usuarioRepo.Save(u);
      assert usuarioRepo.usuarios == old(usuarioRepo.usuarios)[uid := v];
      r := Success(usuarioRepo.usuarios[uid]);
    }

    /** actualizarNivelActividad(uid, nivel). */
    method ActualizarNivelActividad(uid: string, nivel: Option<string>) returns (r: Result<UsuarioDoc>)
      requires usuarioRepo.Valid()
      modifies usuarioRepo
      ensures usuarioRepo.Valid()
      ensures match NivelSpec(old(usuarioRepo.usuarios), uid, nivel)
        case Success(s) => usuarioRepo.usuarios == s && r == Success(s[uid])
        case Failure(e) => usuarioRepo.usuarios == old(usuarioRepo.usuarios) && r == Failure(e)
    {
      var found := ObtenerPerfil(uid);
      if found.Failure? {
        return Failure(found.error);
      }
      var u := found.value;
      ghost var u0 := u.Doc();
      ghost var h := u.historialDeDias;
      AsignarNivel(u, nivel);
      assert Docs(h) == u0.historialDeDias;
      ghost var v := u.Doc();
      assert v == u0.(perfil := ConNivel(u0.perfil, nivel));
      usuarioRepo.Save(u);
      assert usuarioRepo.usuarios == old(usuarioRepo.usuarios)[uid := v];
      r := Success(usuarioRepo.usuarios[uid]);
    }

    /** obtenerNivelActividad(uid). */
    method ObtenerNivelActividad(uid: string) returns (r: Result<Option<string>>)
      ensures uid !in usuarioRepo.usuarios ==> r == Failure(NotFound)
      ensures uid in usuarioRepo.usuarios ==> r == Success(usuarioRepo.usuarios[uid].perfil.nivelActividad)
    {
      var found := ObtenerPerfil(uid);
      if found.Failure? {
        return Failure(found.error);
      }
      r := Success(found.value.nivelActividad);
    }

    /** actualizarPreferencias(uid, dto). */
    method ActualizarPreferencias(uid: string, dto: PreferenciasDTO) returns (r: Result<UsuarioDoc>)
      requires usuarioRepo.Valid()
      modifies usuarioRepo
      ensures usuarioRepo.Valid()
      ensures match PreferenciasSpec(old(usuarioRepo.usuarios), uid, dto)
        case Success(s) => usuarioRepo.usuarios == s && r == Success(s[uid])
        case Failure(e) => usuarioRepo.usuarios == old(usuarioRepo.usuarios) && r == Failure(e)
    {
      var found := ObtenerPerfil(uid);
      if found.Failure? {
        return Failure(found.error);
      }
      var u := found.value;
      ghost var u0 := u.Doc();
      ghost var h := u.historialDeDias;
      AsignarPreferencias(u, dto);
      assert Docs(h) == u0.historialDeDias;
      ghost var v := u.Doc();
      assert v == u0.(perfil := ConPreferencias(u0.perfil, dto));
      usuarioRepo.Save(u);
      assert usuarioRepo.usuarios == old(usuarioRepo.usuarios)[uid := v];
      r := Success(usuarioRepo.usuarios[uid]);
    }

    /** obtenerRecetasUsuario(uid): the stored recipes the user lists. */
    method ObtenerRecetasUsuario(uid: string) returns (r: Result<seq<Doc<Receta>>>)
      ensures uid !in usuarioRepo.usuarios ==> r == Failure(NotFound)
      ensures uid in usuarioRepo.usuarios ==>
        r == Success(CatalogoRecetasService.FindAllByIdsSpec(catalogo.repo.docs, usuarioRepo.usuarios[uid].recetas))
    {
      var found := ObtenerPerfil(uid);
      if found.Failure? {
        return Failure(found.error);
      }
      r := Success(catalogo.FindAllByIds(found.value.recetas));
    }

    /** guardarRecetasUsuario(uid, nuevas): the catalog loop, then the id list built as a LinkedHashSet. */
    method GuardarRecetasUsuario(uid: string, nuevas: seq<Doc<Receta>>) returns (r: Result<seq<Doc<Receta>>>)
      requires usuarioRepo.Valid() && catalogo.Valid()
      requires forall i :: 0 <= i < |nuevas| ==> nuevas[i].id.None?
      modifies usuarioRepo, catalogo.repo
      ensures usuarioRepo.Valid() && catalogo.Valid()
      ensures match GuardarRecetasSpec(old(usuarioRepo.usuarios), old(catalogo.repo.docs), old(catalogo.repo.nextId), uid, nuevas)
        case Success(g) =>
          && usuarioRepo.usuarios == g.usuarios && catalogo.repo.docs == g.docs && catalogo.repo.nextId == g.nextId
          && r == Success(g.devueltas)
        case Failure(e) =>
          && usuarioRepo.usuarios == old(usuarioRepo.usuarios) && catalogo.repo.docs == old(catalogo.repo.docs)
          && catalogo.repo.nextId == old(catalogo.repo.nextId) && r == Failure(e)
    {
      var found := ObtenerPerfil(uid);
      if found.Failure? {
        return Failure(found.error);
      }
      var u := found.value;
      ghost var u0 := usuarioRepo.usuarios[uid];
      assert u.id == u0.perfil.id == uid && u.recetas == u0.recetas && u.Doc() == u0;
      ghost var s := CatalogoRecetasService.SaveAllSpec(catalogo.repo.docs, catalogo.repo.nextId, nuevas);
      var ids := GuardarRecetasDe(u, nuevas);
      assert usuarioRepo.usuarios == old(usuarioRepo.usuarios)[uid := u0.(recetas := ids)];
      r := Success(catalogo.FindAllByIds(ids));
      assert GuardarRecetasSpec(old(usuarioRepo.usuarios), old(catalogo.repo.docs), old(catalogo.repo.nextId), uid, nuevas)
        == Success(Guardado(usuarioRepo.usuarios, s.docs, s.nextId, CatalogoRecetasService.FindAllByIdsSpec(s.docs, ids)));
    }

    /** Lines 185-189 of guardarRecetasUsuario on the loaded user. */
    method GuardarRecetasDe(u: Usuario, nuevas: seq<Doc<Receta>>) returns (ids: seq<nat>)
      requires usuarioRepo.Valid() && catalogo.Valid()
      requires forall i :: 0 <= i < |nuevas| ==> nuevas[i].id.None?
      modifies usuarioRepo, catalogo.repo, u
      ensures usuarioRepo.Valid() && catalogo.Valid()
      ensures var s := CatalogoRecetasService.SaveAllSpec(old(catalogo.repo.docs), old(catalogo.repo.nextId), nuevas);
        && catalogo.repo.docs == s.docs && catalogo.repo.nextId == s.nextId
        && ids == AddAll(Dedup(old(u.recetas)), IdsOf(s.lista))
        && usuarioRepo.usuarios == old(usuarioRepo.usuarios)[old(u.id) := old(u.Doc()).(recetas := ids)]
    {
      ghost var u0 := u.Doc();
      ids := AgregarRecetas(Dedup(u.recetas), nuevas);
      GuardarRecetasFin(u, ids);
      usuarioRepo.Save(u);
    }

    /** Line 186 of guardarRecetasUsuario: each recipe saved unless its title is stored, its id added to the set. */
    method AgregarRecetas(ids0: seq<nat>, nuevas: seq<Doc<Receta>>) returns (ids: seq<nat>)
      requires catalogo.Valid()
      requires forall i :: 0 <= i < |nuevas| ==> nuevas[i].id.None?
      modifies catalogo.repo
      ensures catalogo.Valid()
      ensures var s := CatalogoRecetasService.SaveAllSpec(old(catalogo.repo.docs), old(catalogo.repo.nextId), nuevas);
        && catalogo.repo.docs == s.docs && catalogo.repo.nextId == s.nextId
        && ids == AddAll(ids0, IdsOf(s.lista))
    {
      ids := ids0;
      ghost var docs0, next0 := catalogo.repo.docs, catalogo.repo.nextId;
      ghost var lista: seq<Doc<Receta>> := [];
      var i := 0;
      while i < |nuevas|
        invariant 0 <= i <= |nuevas|
        invariant catalogo.Valid()
        invariant CatalogoRecetasService.SavedAll(catalogo.repo.docs, catalogo.repo.nextId, lista)
                  == CatalogoRecetasService.SaveAllSpec(docs0, next0, nuevas[..i])
        invariant ids == AddAll(ids0, IdsOf(lista))
      {
        CatalogoRecetasService.SaveAllPaso(docs0, next0, nuevas, i);
        var guardada := catalogo.SaveIfNotExists(nuevas[i]);
        AddAllStep(ids0, lista, guardada);
        ids := AddUnique(ids, guardada.id.value);
        lista := lista + [guardada];
        i := i + 1;
      }
      assert nuevas[..|nuevas|] == nuevas;
    }

    /** Line 187 of guardarRecetasUsuario: the user's list replaced. */
    static method GuardarRecetasFin(u: Usuario, ids: seq<nat>)
      modifies u
      ensures u.Doc() == old(u.Doc()).(recetas := ids)
      ensures u.id == old(u.id) && u.recetas == ids
    {
      ghost var h := u.historialDeDias;
      ghost var d := Docs(h);
      u.recetas := ids;
      assert Docs(h) == d;
    }

    /** eliminarRecetaUsuario(uid, recetaId). */
    method EliminarRecetaUsuario(uid: string, recetaId: nat) returns (r: Result<()>)
      requires usuarioRepo.Valid()
      modifies usuarioRepo
      ensures usuarioRepo.Valid()
      ensures match EliminarSpec(old(usuarioRepo.usuarios), uid, recetaId)
        case Success(s) => usuarioRepo.usuarios == s && r == Success(())
        case Failure(e) => usuarioRepo.usuarios == old(usuarioRepo.usuarios) && r == Failure(e)
    {
      var found := ObtenerPerfil(uid);
      if found.Failure? {
        return Failure(found.error);
      }
      var u := found.value;
      if recetaId in u.recetas {
        GuardarRecetasFin(u, RemoveFirst(u.recetas, recetaId));
        usuarioRepo.Save(u);
      }
      r := Success(());
    }
  }
}
