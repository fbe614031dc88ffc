/**
 * IAService.analizarComida: the foods of a meal are split into those the
 * catalog knows (scaled from their per-100 g values) and the rest, which go to
 * the food assistant in one prompt; the answers are numbered alimento_1,
 * alimento_2, ... and every answered food is then added to the catalog and to
 * the user's current day, one after the other.
 *
 * The assistant is a function from the prompt to its parsed reply.
 */
module IAService {
  import opened Wrappers
  import opened Modelos
  import opened Mongo
  import opened CatalogoAlimento
  import opened Usuario
  import Text
  import JavaMath
  import RoundingUtils
  import CaloriasCalculator
  import CatalogoAlimentoService
  import DiaService

  /** One food object of the assistant's reply: its key, macros and, when present, grams. */
  datatype ItemIA = ItemIA(nombre: string, proteinas: real, carbohidratos: real, grasas: real, gramos: Option<int>)

  /** The assistant's reply: an object with an "error" member, or one object per food. */
  datatype RespuestaIA = ErrorIA(mensaje: string) | ItemsIA(items: seq<ItemIA>)

  /** One value of the response object: macros, and grams for the assistant's foods. */
  datatype Entrada = Entrada(proteinas: real, carbohidratos: real, grasas: real, gramos: Option<int>)

  /** What analizarComida returns: the assistant's error object as it came, or the combined response. */
  datatype Salida = SalidaError(mensaje: string) | SalidaRespuesta(respuesta: map<string, Entrada>)

  // ---------------------------------------------------------------------
  // Step 1: found and missing foods

  /**
   * obtenerPorNombre on the catalog as it is, for a name at most one entry
   * has: the body of that entry. The analysis below is stated for any such
   * lookup and used with this one; a name two entries share makes the lookup
   * throw (SinAmbiguos).
   */
  function Buscador(docs: seq<Doc<CatalogoAlimento>>): string -> Option<CatalogoAlimento> {
    n => match FindIgnoreCase(docs, Nombre, n)
         case Some(i) => Some(docs[i].body)
         case None => None
  }

  /** No food of the meal has a name two catalog entries share, so no lookup of the partition throws. */
  predicate SinAmbiguos(docs: seq<Doc<CatalogoAlimento>>, dtos: seq<AlimentoDTO>) {
    forall d :: d in dtos ==> !Ambiguous(docs, Nombre, d.nombre)
  }

  /** One more food keeps the meal free of shared names exactly when its own name is not shared. */
  lemma SinAmbiguosPaso(docs: seq<Doc<CatalogoAlimento>>, dtos: seq<AlimentoDTO>, i: nat)
    requires i < |dtos|
    ensures SinAmbiguos(docs, dtos[..i + 1]) <==> SinAmbiguos(docs, dtos[..i]) && !Ambiguous(docs, Nombre, dtos[i].nombre)
  {
    assert dtos[..i + 1] == dtos[..i] + [dtos[i]];
  }

  /** A food whose name two entries share makes the meal one with a shared name. */
  lemma SinAmbiguosFalla(docs: seq<Doc<CatalogoAlimento>>, dtos: seq<AlimentoDTO>, i: nat)
    requires i < |dtos| && Ambiguous(docs, Nombre, dtos[i].nombre)
    ensures !SinAmbiguos(docs, dtos)
  {
    assert dtos[i] in dtos;
  }

  /** A food is found when it has positive grams and the catalog has its name. */
  predicate EsEncontrado(buscar: string -> Option<CatalogoAlimento>, dto: AlimentoDTO) {
    dto.gramos > 0.0 && buscar(dto.nombre).Some?
  }

  function Encontrados(buscar: string -> Option<CatalogoAlimento>, dtos: seq<AlimentoDTO>): seq<AlimentoDTO>
    decreases |dtos|
  {
    if |dtos| == 0 then []
    else
      var r := Encontrados(buscar, dtos[..|dtos| - 1]);
      if EsEncontrado(buscar, dtos[|dtos| - 1]) then r + [dtos[|dtos| - 1]] else r
  }

  function Faltantes(buscar: string -> Option<CatalogoAlimento>, dtos: seq<AlimentoDTO>): seq<AlimentoDTO>
    decreases |dtos|
  {
    if |dtos| == 0 then []
    else
      var r := Faltantes(buscar, dtos[..|dtos| - 1]);
      if EsEncontrado(buscar, dtos[|dtos| - 1]) then r else r + [dtos[|dtos| - 1]]
  }

  /** The found list holds only found foods. */
  lemma {:induction false} EncontradosSon(buscar: string -> Option<CatalogoAlimento>, dtos: seq<AlimentoDTO>)
    ensures forall i :: 0 <= i < |Encontrados(buscar, dtos)| ==> EsEncontrado(buscar, Encontrados(buscar, dtos)[i])
    decreases |dtos|
  {
    if |dtos| > 0 {
      EncontradosSon(buscar, dtos[..|dtos| - 1]);
    }
  }

  /** The missing list holds only foods that are not found. */
  lemma {:induction false} FaltantesSon(buscar: string -> Option<CatalogoAlimento>, dtos: seq<AlimentoDTO>)
    ensures forall i :: 0 <= i < |Faltantes(buscar, dtos)| ==> !EsEncontrado(buscar, Faltantes(buscar, dtos)[i])
    decreases |dtos|
  {
    if |dtos| > 0 {
      FaltantesSon(buscar, dtos[..|dtos| - 1]);
    }
  }

  /** Every food goes to exactly one of the two lists: together they are the input. */
  lemma {:induction false} ParticionMultiset(buscar: string -> Option<CatalogoAlimento>, dtos: seq<AlimentoDTO>)
    ensures multiset(Encontrados(buscar, dtos)) + multiset(Faltantes(buscar, dtos)) == multiset(dtos)
    decreases |dtos|
  {
    if |dtos| > 0 {
      var init := dtos[..|dtos| - 1];
      ParticionMultiset(buscar, init);
      assert dtos == init + [dtos[|dtos| - 1]];
    }
  }

  /** The found foods are foods of the meal, so a meal free of shared names gives found foods free of them. */
  lemma EncontradosSinAmbiguos(docs: seq<Doc<CatalogoAlimento>>, dtos: seq<AlimentoDTO>)
    requires SinAmbiguos(docs, dtos)
    ensures SinAmbiguos(docs, Encontrados(Buscador(docs), dtos))
  {
    var enc := Encontrados(Buscador(docs), dtos);
    ParticionMultiset(Buscador(docs), dtos);
    forall d | d in enc ensures d in dtos {
      assert d in multiset(enc);
      assert d in multiset(dtos);
    }
  }

  /** The found list keeps the input order: splitting a concatenation splits each part. */
  lemma {:induction false} EncontradosConcat(buscar: string -> Option<CatalogoAlimento>, a: seq<AlimentoDTO>, b: seq<AlimentoDTO>)
    ensures Encontrados(buscar, a + b) == Encontrados(buscar, a) + Encontrados(buscar, b)
    decreases |b|
  {
    if |b| == 0 {
      assert a + b == a;
    } else {
      var init, last := b[..|b| - 1], b[|b| - 1];
      EncontradosConcat(buscar, a, init);
      assert (a + b)[..|a + b| - 1] == a + init && (a + b)[|a + b| - 1] == last;
    }
  }

  /** The missing list keeps the input order in the same way. */
  lemma {:induction false} FaltantesConcat(buscar: string -> Option<CatalogoAlimento>, a: seq<AlimentoDTO>, b: seq<AlimentoDTO>)
    ensures Faltantes(buscar, a + b) == Faltantes(buscar, a) + Faltantes(buscar, b)
    decreases |b|
  {
    if |b| == 0 {
      assert a + b == a;
    } else {
      var init, last := b[..|b| - 1], b[|b| - 1];
      FaltantesConcat(buscar, a, init);
      assert (a + b)[..|a + b| - 1] == a + init && (a + b)[|a + b| - 1] == last;
    }
  }

  predicate TodosEncontrados(buscar: string -> Option<CatalogoAlimento>, enc: seq<AlimentoDTO>) {
    forall i :: 0 <= i < |enc| ==> buscar(enc[i].nombre).Some?
  }

  lemma EncontradosEnCatalogo(buscar: string -> Option<CatalogoAlimento>, dtos: seq<AlimentoDTO>)
    ensures TodosEncontrados(buscar, Encontrados(buscar, dtos))
  {
    EncontradosSon(buscar, dtos);
  }

  // ---------------------------------------------------------------------
  // Step 2: the found foods

  /** The catalog entry of a found food (obtenerPorNombre(...).get()). */
  function CatDe(buscar: string -> Option<CatalogoAlimento>, dto: AlimentoDTO): CatalogoAlimento
    requires buscar(dto.nombre).Some?
  {
    buscar(dto.nombre).value
  }

  /** Lines 164-167: each per-100 g value times the factor gramos / 100, rounded to one decimal. */
  function MacrosEncontrado(cat: CatalogoAlimento, factor: real): Macros {
    Macros(RoundingUtils.OneDecimal(cat.proteinasPor100g * factor),
           RoundingUtils.OneDecimal(cat.carbohidratosPor100g * factor),
           RoundingUtils.OneDecimal(cat.grasasPor100g * factor))
  }

  function EntradaEncontrado(cat: CatalogoAlimento, dto: AlimentoDTO): Entrada {
    var m := MacrosEncontrado(cat, dto.gramos / 100.0);
    Entrada(m.proteinasG, m.carbohidratosG, m.grasasG, None)
  }

  /** Lines 175-182: the catalog's name, the grams rounded to an int, the scaled macros and their calories. */
  function RegistroEncontrado(cat: CatalogoAlimento, dto: AlimentoDTO): Alimento {
    var m := MacrosEncontrado(cat, dto.gramos / 100.0);
    Alimento(cat.nombre, JavaMath.JavaIntRound(dto.gramos),
             CaloriasCalculator.CalcularCalorias(m.proteinasG, m.carbohidratosG, m.grasasG),
             m.proteinasG, m.carbohidratosG, m.grasasG)
  }

  function EntradasEncontrados(buscar: string -> Option<CatalogoAlimento>, enc: seq<AlimentoDTO>): (r: seq<Entrada>)
    requires TodosEncontrados(buscar, enc)
    ensures |r| == |enc|
    decreases |enc|
  {
    if |enc| == 0 then []
    else EntradasEncontrados(buscar, enc[..|enc| - 1]) + [EntradaEncontrado(CatDe(buscar, enc[|enc| - 1]), enc[|enc| - 1])]
  }

  function RegistrosEncontrados(buscar: string -> Option<CatalogoAlimento>, enc: seq<AlimentoDTO>): (r: seq<Alimento>)
    requires TodosEncontrados(buscar, enc)
    ensures |r| == |enc|
    decreases |enc|
  {
    if |enc| == 0 then []
    else RegistrosEncontrados(buscar, enc[..|enc| - 1]) + [RegistroEncontrado(CatDe(buscar, enc[|enc| - 1]), enc[|enc| - 1])]
  }

  /** The k-th entries of the two lists are those of the k-th found food. */
  lemma {:induction false} EncontradosAt(buscar: string -> Option<CatalogoAlimento>, enc: seq<AlimentoDTO>, k: nat)
    requires TodosEncontrados(buscar, enc) && k < |enc|
    ensures EntradasEncontrados(buscar, enc)[k] == EntradaEncontrado(CatDe(buscar, enc[k]), enc[k])
    ensures RegistrosEncontrados(buscar, enc)[k] == RegistroEncontrado(CatDe(buscar, enc[k]), enc[k])
    decreases |enc|
  {
    if k < |enc| - 1 {
      EncontradosAt(buscar, enc[..|enc| - 1], k);
    }
  }

  /** One more found food adds its entry and its registration at the end. */
  lemma EncontradosPaso(buscar: string -> Option<CatalogoAlimento>, enc: seq<AlimentoDTO>, i: nat)
    requires TodosEncontrados(buscar, enc) && i < |enc|
    ensures TodosEncontrados(buscar, enc[..i]) && TodosEncontrados(buscar, enc[..i + 1])
    ensures EntradasEncontrados(buscar, enc[..i + 1])
            == EntradasEncontrados(buscar, enc[..i]) + [EntradaEncontrado(CatDe(buscar, enc[i]), enc[i])]
    ensures RegistrosEncontrados(buscar, enc[..i + 1])
            == RegistrosEncontrados(buscar, enc[..i]) + [RegistroEncontrado(CatDe(buscar, enc[i]), enc[i])]
  {
    assert enc[..i + 1][..i] == enc[..i];
  }

  // ---------------------------------------------------------------------
  // Step 3: the prompt

  /** Lines 191-197: "RgstrAlim", then " nombre gramos" for each missing food, grams rounded to an int. */
  function Prompt(faltantes: seq<AlimentoDTO>): string
    decreases |faltantes|
  {
    if |faltantes| == 0 then "RgstrAlim"
    else
      var d := faltantes[|faltantes| - 1];
      Prompt(faltantes[..|faltantes| - 1]) + " " + d.nombre + " " + Text.IntToString(JavaMath.JavaIntRound(d.gramos))
  }

  /** The prompt starts "RgstrAlim" and lists the missing foods in order: each prefix's prompt is a prefix of it. */
  lemma {:induction false} PromptOrden(faltantes: seq<AlimentoDTO>, i: nat)
    requires i <= |faltantes|
    ensures Prompt(faltantes[..i]) <= Prompt(faltantes)
    decreases |faltantes|
  {
    if i < |faltantes| {
      var init := faltantes[..|faltantes| - 1];
      assert faltantes[..i] == init[..i];
      PromptOrden(init, i);
    } else {
      assert faltantes[..i] == faltantes;
    }
  }

  /** Every prompt starts with the command word of line 191. */
  lemma PromptEmpieza(faltantes: seq<AlimentoDTO>)
    ensures "RgstrAlim" <= Prompt(faltantes)
  {
    PromptOrden(faltantes, 0);
    assert faltantes[..0] == [];
  }

  /** A witness for PromptOrden: one missing food of 150.4 g, its grams rounded before they are written. */
  lemma PromptEjemplo()
    ensures Prompt([AlimentoDTO("kiwi", 150.4)]) == "RgstrAlim kiwi 150"
  {
    var l := [AlimentoDTO("kiwi", 150.4)];
    assert l[..0] == [];
    assert JavaMath.MathRound(150.4) == 150;
    assert Text.NatToString(150) == "150" by {
      assert Text.NatToString(1) == "1";
      assert Text.NatToString(15) == "15";
    }
  }

  // ---------------------------------------------------------------------
  // Step 4: the assistant's foods

  /** d.has("gramos") ? d.getInt("gramos") : 0. */
  function GramosIA(it: ItemIA): int {
    match it.gramos
    case Some(g) => g
    case None => 0
  }

  function EntradaIA(it: ItemIA): Entrada {
    Entrada(it.proteinas, it.carbohidratos, it.grasas, Some(GramosIA(it)))
  }

  /** Lines 257-262: the reply's key as the name, its grams, its macros and their calories. */
  function RegistroIA(it: ItemIA): Alimento {
    Alimento(it.nombre, GramosIA(it), CaloriasCalculator.CalcularCalorias(it.proteinas, it.carbohidratos, it.grasas),
             it.proteinas, it.carbohidratos, it.grasas)
  }

  function EntradasIA(items: seq<ItemIA>): (r: seq<Entrada>)
    ensures |r| == |items|
    decreases |items|
  {
    if |items| == 0 then [] else EntradasIA(items[..|items| - 1]) + [EntradaIA(items[|items| - 1])]
  }

  function RegistrosIA(items: seq<ItemIA>): (r: seq<Alimento>)
    ensures |r| == |items|
    decreases |items|
  {
    if |items| == 0 then [] else RegistrosIA(items[..|items| - 1]) + [RegistroIA(items[|items| - 1])]
  }

  lemma {:induction false} IAAt(items: seq<ItemIA>, k: nat)
    requires k < |items|
    ensures EntradasIA(items)[k] == EntradaIA(items[k])
    ensures RegistrosIA(items)[k] == RegistroIA(items[k])
    decreases |items|
  {
    if k < |items| - 1 {
      IAAt(items[..|items| - 1], k);
    }
  }

  /** One more of the assistant's foods adds its entry and its registration at the end. */
  lemma IAPaso(items: seq<ItemIA>, j: nat)
    requires j < |items|
    ensures EntradasIA(items[..j + 1]) == EntradasIA(items[..j]) + [EntradaIA(items[j])]
    ensures RegistrosIA(items[..j + 1]) == RegistrosIA(items[..j]) + [RegistroIA(items[j])]
  {
    assert items[..j + 1][..j] == items[..j];
  }

  // ---------------------------------------------------------------------
  // The numbering

  /** "alimento_" + idx. */
  function Clave(idx: nat): string {
    "alimento_" + Text.NatToString(idx)
  }

  /** Distinct numbers give distinct keys. */
  lemma ClaveInyectiva(i: nat, j: nat)
    ensures Clave(i) == Clave(j) ==> i == j
  {
    Text.PrefixCancel("alimento_", Text.NatToString(i), Text.NatToString(j));
    Text.NatToStringInjective(i, j);
  }

  /** The response object as built, keyed by idx: the key written for idx is Clave(idx). */
  type Respuesta = map<nat, Entrada>

  /** respuesta.toString(): the object with each idx rendered as its key. */
  function Json(m: Respuesta): map<string, Entrada> {
    ClavesInyectivas();
    map k | k in m :: Clave(k) := m[k]
  }

  lemma ClavesInyectivas()
    ensures forall i: nat, j: nat :: Clave(i) == Clave(j) ==> i == j
  {
    forall i: nat, j: nat ensures Clave(i) == Clave(j) ==> i == j {
      ClaveInyectiva(i, j);
    }
  }

  /** Every idx becomes its own key with its entry, and the object has no other key. */
  lemma JsonOutcome(m: Respuesta)
    ensures forall k :: k in m ==> Clave(k) in Json(m) && Json(m)[Clave(k)] == m[k]
    ensures forall key :: key in Json(m) ==> exists k :: k in m && key == Clave(k)
  {
    ClavesInyectivas();
  }

  /** One numbered entry, as it appears in the rendered object. */
  lemma JsonEn(m: Respuesta, k: nat)
    requires k in m
    ensures Clave(k) in Json(m) && Json(m)[Clave(k)] == m[k]
  {
    ClavesInyectivas();
  }

  /** The entries put one after the other under desde, desde + 1, ... */
  function Numerar(entradas: seq<Entrada>, desde: nat): Respuesta
    decreases |entradas|
  {
    if |entradas| == 0 then map[]
    else Numerar(entradas[..|entradas| - 1], desde)[desde + |entradas| - 1 := entradas[|entradas| - 1]]
  }

  /** The numbers used are exactly desde .. desde + n - 1, one per entry. */
  lemma {:induction false} NumerarClaves(entradas: seq<Entrada>, desde: nat)
    ensures forall k :: k in Numerar(entradas, desde) <==> desde <= k < desde + |entradas|
    decreases |entradas|
  {
    if |entradas| > 0 {
      NumerarClaves(entradas[..|entradas| - 1], desde);
    }
  }

  /** The k-th entry is under desde + k. */
  lemma {:induction false} NumerarEn(entradas: seq<Entrada>, desde: nat, k: nat, i: nat)
    requires k < |entradas| && i == desde + k
    ensures i in Numerar(entradas, desde) && Numerar(entradas, desde)[i] == entradas[k]
    decreases |entradas|
  {
    var n := |entradas| - 1;
    if k < n {
      NumerarEn(entradas[..n], desde, k, i);
    }
  }

  lemma NumerarAppend(entradas: seq<Entrada>, e: Entrada, desde: nat)
    ensures Numerar(entradas + [e], desde) == Numerar(entradas, desde)[desde + |entradas| := e]
  {
    assert (entradas + [e])[..|entradas|] == entradas;
  }

  /** The k-th found food goes under alimento_(k+1). */
  lemma ProcesarPaso(buscar: string -> Option<CatalogoAlimento>, enc: seq<AlimentoDTO>, i: nat)
    requires TodosEncontrados(buscar, enc) && i < |enc|
    ensures TodosEncontrados(buscar, enc[..i]) && TodosEncontrados(buscar, enc[..i + 1])
    ensures Numerar(EntradasEncontrados(buscar, enc[..i + 1]), 1)
            == Numerar(EntradasEncontrados(buscar, enc[..i]), 1)[i + 1 := EntradaEncontrado(CatDe(buscar, enc[i]), enc[i])]
    ensures RegistrosEncontrados(buscar, enc[..i + 1])
            == RegistrosEncontrados(buscar, enc[..i]) + [RegistroEncontrado(CatDe(buscar, enc[i]), enc[i])]
  {
    EncontradosPaso(buscar, enc, i);
    NumerarAppend(EntradasEncontrados(buscar, enc[..i]), EntradaEncontrado(CatDe(buscar, enc[i]), enc[i]), 1);
  }

  /** The assistant's j-th food goes under the key after those already there. */
  lemma IntegrarPaso(entradas: seq<Entrada>, items: seq<ItemIA>, j: nat)
    requires j < |items|
    ensures Numerar(entradas + EntradasIA(items[..j + 1]), 1)
            == Numerar(entradas + EntradasIA(items[..j]), 1)[|entradas| + j + 1 := EntradaIA(items[j])]
  {
    var x := EntradasIA(items[..j]);
    var e := EntradaIA(items[j]);
    IAPaso(items, j);
    ConcatAsociativa(entradas, x, [e]);
    NumerarAppend(entradas + x, e, 1);
  }

  /** Sequence step used by IntegrarPaso, kept apart so that its proof context stays small. */
  lemma ConcatAsociativa<T>(a: seq<T>, b: seq<T>, c: seq<T>)
    ensures a + (b + c) == (a + b) + c
  {
  }

  /** The k-th found food is alimento_(k+1) and the k-th registration, whatever follows it. */
  lemma EncontradoEn(entradas: seq<Entrada>, registros: seq<Alimento>, mas: seq<Entrada>, masR: seq<Alimento>, k: nat, i: nat)
    requires k < |entradas| && |registros| == |entradas| && i == k + 1
    ensures i in Numerar(entradas + mas, 1)
    ensures Numerar(entradas + mas, 1)[i] == entradas[k]
    ensures (registros + masR)[k] == registros[k]
  {
    NumerarEn(entradas + mas, 1, k, i);
    assert (entradas + mas)[k] == entradas[k];
  }

  // ---------------------------------------------------------------------
  // The whole analysis

  /** The assistant's error, or the entries numbered by idx before they are rendered. */
  datatype Resultado = FalloIA(mensaje: string) | Numerada(respuesta: Respuesta)

  /** The result, the prompt sent (if any), and the foods to register. */
  datatype Analisis = Analisis(resultado: Resultado, prompt: Option<string>, registrar: seq<Alimento>)

  /** Line 269, or the error object of lines 233-238, as analizarComida returns it. */
  function SalidaDe(r: Resultado): Salida {
    match r
    case FalloIA(msg) => SalidaError(msg)
    case Numerada(m) => SalidaRespuesta(Json(m))
  }

  /** analizarComida(dtos, usuarioId) up to the response, for a catalog lookup and an assistant. */
  function AnalisisSpec(buscar: string -> Option<CatalogoAlimento>, dtos: seq<AlimentoDTO>, asistente: string -> RespuestaIA)
    : Analisis
  {
    var enc, falt := Encontrados(buscar, dtos), Faltantes(buscar, dtos);
    EncontradosEnCatalogo(buscar, dtos);
    var entradas, registros := EntradasEncontrados(buscar, enc), RegistrosEncontrados(buscar, enc);
    if |falt| == 0 then Analisis(Numerada(Numerar(entradas, 1)), None, registros)
    else
      match asistente(Prompt(falt))
      case ErrorIA(msg) => Analisis(FalloIA(msg), Some(Prompt(falt)), [])
      case ItemsIA(items) =>
        Analisis(Numerada(Numerar(entradas + EntradasIA(items), 1)), Some(Prompt(falt)), registros + RegistrosIA(items))
  }

  /**
   * The assistant is asked exactly when some food is missing, with the prompt
   * of the missing foods; its error comes back as it was and leaves nothing
   * to register.
   */
  lemma AnalisisPregunta(buscar: string -> Option<CatalogoAlimento>, dtos: seq<AlimentoDTO>, asistente: string -> RespuestaIA)
    ensures var a := AnalisisSpec(buscar, dtos, asistente);
      var falt := Faltantes(buscar, dtos);
      && (a.prompt.Some? <==> |falt| > 0)
      && (a.prompt.Some? ==> a.prompt.value == Prompt(falt))
      && (a.resultado.FalloIA? <==> |falt| > 0 && asistente(Prompt(falt)).ErrorIA?)
      && (a.resultado.FalloIA? ==> a.resultado.mensaje == asistente(Prompt(falt)).mensaje && a.registrar == [])
  {
  }

  /**
   * A response holds alimento_1 .. alimento_n and no other key, one key per
   * food to register: the found foods and then the assistant's.
   */
  lemma AnalisisClaves(buscar: string -> Option<CatalogoAlimento>, dtos: seq<AlimentoDTO>, asistente: string -> RespuestaIA)
    requires AnalisisSpec(buscar, dtos, asistente).resultado.Numerada?
    ensures var a := AnalisisSpec(buscar, dtos, asistente);
      var falt := Faltantes(buscar, dtos);
      && |a.registrar| == |Encontrados(buscar, dtos)| + (if |falt| == 0 then 0 else |asistente(Prompt(falt)).items|)
      && (forall k :: k in a.resultado.respuesta <==> 1 <= k <= |a.registrar|)
  {
    var enc, falt := Encontrados(buscar, dtos), Faltantes(buscar, dtos);
    EncontradosEnCatalogo(buscar, dtos);
    var entradas := EntradasEncontrados(buscar, enc);
    var todas := if |falt| == 0 then entradas else entradas + EntradasIA(asistente(Prompt(falt)).items);
    NumerarClaves(todas, 1);
  }

  /** Every food to register carries the calories of its own macros. */
  lemma AnalisisCalorias(buscar: string -> Option<CatalogoAlimento>, dtos: seq<AlimentoDTO>, asistente: string -> RespuestaIA)
    ensures var r := AnalisisSpec(buscar, dtos, asistente).registrar;
      forall i :: 0 <= i < |r| ==>
        r[i].calorias == CaloriasCalculator.CalcularCalorias(r[i].proteinasG, r[i].carbohidratosG, r[i].grasasG)
  {
    var r := AnalisisSpec(buscar, dtos, asistente).registrar;
    var enc, falt := Encontrados(buscar, dtos), Faltantes(buscar, dtos);
    EncontradosEnCatalogo(buscar, dtos);
    var registros := RegistrosEncontrados(buscar, enc);
    assert CaloriasCoherentes(registros) by { EncontradosCoherentes(buscar, enc); }
    if |falt| == 0 {
      assert r == registros;
    } else if asistente(Prompt(falt)).ErrorIA? {
      assert r == [];
    } else {
      var items := asistente(Prompt(falt)).items;
      assert CaloriasCoherentes(RegistrosIA(items)) by { IACoherentes(items); }
      assert r == registros + RegistrosIA(items);
      CoherentesConcat(registros, RegistrosIA(items));
    }
  }

  /** Every food in the list carries the calories of its own macronutrients. */
  ghost predicate CaloriasCoherentes(r: seq<Alimento>) {
    forall i :: 0 <= i < |r| ==>
      r[i].calorias == CaloriasCalculator.CalcularCalorias(r[i].proteinasG, r[i].carbohidratosG, r[i].grasasG)
  }

  lemma CoherentesConcat(a: seq<Alimento>, b: seq<Alimento>)
    requires CaloriasCoherentes(a) && CaloriasCoherentes(b)
    ensures CaloriasCoherentes(a + b)
  {
    forall i | 0 <= i < |a + b|
      ensures (a + b)[i].calorias
              == CaloriasCalculator.CalcularCalorias((a + b)[i].proteinasG, (a + b)[i].carbohidratosG, (a + b)[i].grasasG)
    {
      if i < |a| { assert (a + b)[i] == a[i]; } else { assert (a + b)[i] == b[i - |a|]; }
    }
  }

  lemma EncontradosCoherentes(buscar: string -> Option<CatalogoAlimento>, enc: seq<AlimentoDTO>)
    requires TodosEncontrados(buscar, enc)
    ensures CaloriasCoherentes(RegistrosEncontrados(buscar, enc))
  {
    var r := RegistrosEncontrados(buscar, enc);
    forall i | 0 <= i < |r|
      ensures r[i].calorias == CaloriasCalculator.CalcularCalorias(r[i].proteinasG, r[i].carbohidratosG, r[i].grasasG)
    {
      EncontradosAt(buscar, enc, i);
    }
  }

  lemma IACoherentes(items: seq<ItemIA>)
    ensures CaloriasCoherentes(RegistrosIA(items))
  {
    var r := RegistrosIA(items);
    forall i | 0 <= i < |r|
      ensures r[i].calorias == CaloriasCalculator.CalcularCalorias(r[i].proteinasG, r[i].carbohidratosG, r[i].grasasG)
    {
      IAAt(items, i);
    }
  }

  /**
   * The k-th found food is numbered i = k + 1 (alimento_i once rendered), with
   * the values scaled from its catalog entry, and it is the k-th food registered.
   */
  lemma EncontradoRegistrado(buscar: string -> Option<CatalogoAlimento>, dtos: seq<AlimentoDTO>, asistente: string -> RespuestaIA,
                             k: nat, i: nat)
    requires k < |Encontrados(buscar, dtos)| && i == k + 1
    requires AnalisisSpec(buscar, dtos, asistente).resultado.Numerada?
    ensures var dto := Encontrados(buscar, dtos)[k];
      var a := AnalisisSpec(buscar, dtos, asistente);
      && EsEncontrado(buscar, dto)
      && i in a.resultado.respuesta
      && a.resultado.respuesta[i] == EntradaEncontrado(CatDe(buscar, dto), dto)
      && a.registrar[k] == RegistroEncontrado(CatDe(buscar, dto), dto)
  {
    var enc, falt := Encontrados(buscar, dtos), Faltantes(buscar, dtos);
    EncontradosSon(buscar, dtos);
    var entradas, registros := EntradasEncontrados(buscar, enc), RegistrosEncontrados(buscar, enc);
    EncontradosAt(buscar, enc, k);
    if |falt| == 0 {
      EncontradoEn(entradas, registros, [], [], k, i);
      assert entradas + [] == entradas && registros + [] == registros;
    } else {
      var items := asistente(Prompt(falt)).items;
      EncontradoEn(entradas, registros, EntradasIA(items), RegistrosIA(items), k, i);
    }
  }

  /**
   * The assistant's j-th food comes after all found foods: it is numbered
   * k = |found| + j + 1 and keeps the reply's macros, with grams 0 when the reply has none.
   */
  lemma ItemIARespondido(buscar: string -> Option<CatalogoAlimento>, dtos: seq<AlimentoDTO>, asistente: string -> RespuestaIA,
                         items: seq<ItemIA>, j: nat, k: nat)
    requires |Faltantes(buscar, dtos)| > 0 && asistente(Prompt(Faltantes(buscar, dtos))) == ItemsIA(items)
    requires j < |items| && k == |Encontrados(buscar, dtos)| + j + 1
    ensures var a := AnalisisSpec(buscar, dtos, asistente);
      a.resultado.Numerada? && k in a.resultado.respuesta
      && a.resultado.respuesta[k] == EntradaIA(items[j])
  {
    var enc := Encontrados(buscar, dtos);
    EncontradosEnCatalogo(buscar, dtos);
    var entradas := EntradasEncontrados(buscar, enc);
    var m := Numerar(entradas + EntradasIA(items), 1);
    assert k in m && m[k] == EntradaIA(items[j]) by { RespuestaIAEn(entradas, items, j, k); }
    assert AnalisisSpec(buscar, dtos, asistente).resultado == Numerada(m) by { AnalisisConIA(buscar, dtos, asistente); }
  }

  lemma RespuestaIAEn(entradas: seq<Entrada>, items: seq<ItemIA>, j: nat, k: nat)
    requires j < |items| && k == |entradas| + j + 1
    ensures var m := Numerar(entradas + EntradasIA(items), 1);
      k in m && m[k] == EntradaIA(items[j])
  {
    IAAt(items, j);
    NumerarEn(entradas + EntradasIA(items), 1, |entradas| + j, k);
    assert (entradas + EntradasIA(items))[|entradas| + j] == EntradasIA(items)[j];
  }

  /** The assistant's j-th food is registered after all found foods, under its own name and grams (0 when absent). */
  lemma ItemIARegistrado(buscar: string -> Option<CatalogoAlimento>, dtos: seq<AlimentoDTO>, asistente: string -> RespuestaIA,
                         j: nat)
    requires |Faltantes(buscar, dtos)| > 0
    requires asistente(Prompt(Faltantes(buscar, dtos))).ItemsIA?
    requires j < |asistente(Prompt(Faltantes(buscar, dtos))).items|
    ensures var it := asistente(Prompt(Faltantes(buscar, dtos))).items[j];
      var r := AnalisisSpec(buscar, dtos, asistente).registrar;
      var n := |Encontrados(buscar, dtos)|;
      && n + j < |r|
      && r[n + j].nombre == it.nombre
      && r[n + j].gramos == (if it.gramos.Some? then it.gramos.value else 0)
  {
    var enc, falt := Encontrados(buscar, dtos), Faltantes(buscar, dtos);
    EncontradosEnCatalogo(buscar, dtos);
    var items := asistente(Prompt(falt)).items;
    var entradas, registros := EntradasEncontrados(buscar, enc), RegistrosEncontrados(buscar, enc);
    AnalisisConIA(buscar, dtos, asistente);
    RegistroIAEn(registros, items, j);
  }

  lemma RegistroIAEn(registros: seq<Alimento>, items: seq<ItemIA>, j: nat)
    requires j < |items|
    ensures var r := registros + RegistrosIA(items);
      && |registros| + j < |r|
      && r[|registros| + j].nombre == items[j].nombre
      && r[|registros| + j].gramos == (if items[j].gramos.Some? then items[j].gramos.value else 0)
  {
    IAAt(items, j);
    assert (registros + RegistrosIA(items))[|registros| + j] == RegistrosIA(items)[j];
  }

  /** The analysis when there are misses and the assistant returns foods. */
  lemma AnalisisConIA(buscar: string -> Option<CatalogoAlimento>, dtos: seq<AlimentoDTO>, asistente: string -> RespuestaIA)
    requires |Faltantes(buscar, dtos)| > 0
    requires asistente(Prompt(Faltantes(buscar, dtos))).ItemsIA?
    ensures var enc := Encontrados(buscar, dtos);
      var items := asistente(Prompt(Faltantes(buscar, dtos))).items;
      var a := AnalisisSpec(buscar, dtos, asistente);
      && TodosEncontrados(buscar, enc)
      && a.resultado == Numerada(Numerar(EntradasEncontrados(buscar, enc) + EntradasIA(items), 1))
      && a.registrar == RegistrosEncontrados(buscar, enc) + RegistrosIA(items)
  {
    EncontradosEnCatalogo(buscar, dtos);
  }

  // ---------------------------------------------------------------------
  // Step 6: persistence

  /** The catalog and the users. */
  datatype Almacenes = Almacenes(docs: seq<Doc<CatalogoAlimento>>, nextId: nat, usuarios: map<string, UsuarioDoc>)

  /** The stores after some items, and the exception that stopped the loop, if one did. */
  datatype Avance = Avance(almacenes: Almacenes, error: Option<Error>)

  /** The macros registrarAlimento receives for a registered food (MacrosDTO in constructor order). */
  function MacrosDe(a: Alimento): MacrosDTO {
    MacrosDTO(a.proteinasG, a.carbohidratosG, a.grasasG, a.calorias)
  }

  /** Lines 274-276 for one food: guardarSiNoExiste, then registrarAlimento; a failure stops there. */
  function PasoSpec(e: Almacenes, uid: string, a: Alimento, hoy: Date, ahora: TimeOfDay): Avance {
    match CatalogoAlimentoService.GuardarSiNoExisteSpec(e.docs, e.nextId, a)
    case Failure(err) => Avance(e, Some(err))
    case Success(s) =>
      var e1 := e.(docs := s.docs, nextId := s.nextId);
      match DiaService.RegistrarSpec(e.usuarios, uid, MacrosDe(a), hoy, ahora)
      case Failure(err) => Avance(e1, Some(err))
      case Success(u) => Avance(e1.(usuarios := u), None)
  }

  /** The background loop over the foods, in order, stopped by the first exception. */
  function PersistirSpec(e: Almacenes, uid: string, l: seq<Alimento>, hoy: Date, ahora: TimeOfDay): Avance
    decreases |l|
  {
    if |l| == 0 then Avance(e, None)
    else
      var p := PersistirSpec(e, uid, l[..|l| - 1], hoy, ahora);
      if p.error.Some? then p else PasoSpec(p.almacenes, uid, l[|l| - 1], hoy, ahora)
  }

  /** One more food extends the run by one step, unless the run has already stopped. */
  lemma PersistirPaso(e: Almacenes, uid: string, l: seq<Alimento>, i: nat, hoy: Date, ahora: TimeOfDay)
    requires i < |l|
    ensures var p := PersistirSpec(e, uid, l[..i], hoy, ahora);
      PersistirSpec(e, uid, l[..i + 1], hoy, ahora) == if p.error.Some? then p else PasoSpec(p.almacenes, uid, l[i], hoy, ahora)
  {
    assert l[..i + 1][..i] == l[..i];
  }

  /** Once a food has failed, the foods after it change nothing. */
  lemma {:induction false} PersistirDetenido(e: Almacenes, uid: string, l: seq<Alimento>, m: seq<Alimento>, hoy: Date, ahora: TimeOfDay)
    requires PersistirSpec(e, uid, l, hoy, ahora).error.Some?
    ensures PersistirSpec(e, uid, l + m, hoy, ahora) == PersistirSpec(e, uid, l, hoy, ahora)
    decreases |m|
  {
    if |m| == 0 {
      assert l + m == l;
    } else {
      PersistirDetenido(e, uid, l, m[..|m| - 1], hoy, ahora);
      assert (l + m)[..|l + m| - 1] == l + m[..|m| - 1];
    }
  }

  /** A run stopped at food i ends there. */
  lemma PersistirCorte(e: Almacenes, uid: string, l: seq<Alimento>, i: nat, hoy: Date, ahora: TimeOfDay)
    requires i < |l| && PersistirSpec(e, uid, l[..i + 1], hoy, ahora).error.Some?
    ensures PersistirSpec(e, uid, l, hoy, ahora) == PersistirSpec(e, uid, l[..i + 1], hoy, ahora)
  {
    PersistirDetenido(e, uid, l[..i + 1], l[i + 1..], hoy, ahora);
    assert l[..i + 1] + l[i + 1..] == l;
  }

  /** The catalog only grows, stays well formed and keeps its names unique; the users keep their ids. */
  lemma {:induction false} PersistirConserva(e: Almacenes, uid: string, l: seq<Alimento>, hoy: Date, ahora: TimeOfDay)
    requires WellFormed(e.docs, e.nextId) && UniqueKeys(e.docs, Nombre)
    ensures var p := PersistirSpec(e, uid, l, hoy, ahora).almacenes;
      && e.docs <= p.docs && WellFormed(p.docs, p.nextId) && UniqueKeys(p.docs, Nombre)
      && p.usuarios.Keys == e.usuarios.Keys
    decreases |l|
  {
    if |l| > 0 {
      var init := l[..|l| - 1];
      PersistirConserva(e, uid, init, hoy, ahora);
      var p := PersistirSpec(e, uid, init, hoy, ahora);
      if p.error.None? {
        var a := l[|l| - 1];
        var q := p.almacenes;
        CatalogoAlimentoService.GuardarSiNoExisteOutcome(q.docs, q.nextId, a);
        if CatalogoAlimentoService.GuardarSiNoExisteSpec(q.docs, q.nextId, a).Success? {
          CatalogoAlimentoService.GuardarSiNoExisteKeepsUniqueNames(q.docs, q.nextId, a);
          DiaService.RegistrarOutcome(q.usuarios, uid, MacrosDe(a), hoy, ahora);
        }
      }
    }
  }

  /**
   * An assistant's food without grams whose name the catalog lacks stops the
   * loop: from() rejects the infinite factor, and neither it nor any later
   * food reaches the catalog or the day.
   */
  lemma SinGramosDetiene(e: Almacenes, uid: string, l: seq<Alimento>, it: ItemIA, m: seq<Alimento>, hoy: Date, ahora: TimeOfDay)
    requires it.gramos.None?
    requires PersistirSpec(e, uid, l, hoy, ahora).error.None?
    requires FindIgnoreCase(PersistirSpec(e, uid, l, hoy, ahora).almacenes.docs, Nombre, it.nombre).None?
    ensures PersistirSpec(e, uid, l + [RegistroIA(it)] + m, hoy, ahora)
            == Avance(PersistirSpec(e, uid, l, hoy, ahora).almacenes, Some(NonFiniteNumber))
  {
    var l1 := l + [RegistroIA(it)];
    assert l1[..|l1| - 1] == l;
    PersistirDetenido(e, uid, l1, m, hoy, ahora);
  }

  // ---------------------------------------------------------------------
  // The service

  class IAService {
    const diaService: DiaService.DiaService
    const catalogoService: CatalogoAlimentoService.CatalogoAlimentoService

    constructor (diaService: DiaService.DiaService, catalogoService: CatalogoAlimentoService.CatalogoAlimentoService)
      ensures this.diaService == diaService && this.catalogoService == catalogoService
    {
      this.diaService := diaService;
      this.catalogoService := catalogoService;
    }

    ghost predicate Valid()
      reads this, diaService, diaService.usuarioRepository, catalogoService, catalogoService.repository
    {
      diaService.usuarioRepository.Valid() && catalogoService.Valid()
    }

    ghost function Estado(): Almacenes
      reads this, diaService, diaService.usuarioRepository, catalogoService, catalogoService.repository
    {
      Almacenes(catalogoService.repository.docs, catalogoService.repository.nextId, diaService.usuarioRepository.usuarios)
    }

    /**
     * analizarComida(dtos, usuarioId), the assistant and the clock passed in:
     * IncorrectResultSize, with nothing asked or stored, when a food's name is
     * one two catalog entries share; otherwise the response as the analysis
     * gives it over the catalog as it was, then the persistence loop run to
     * its end or its first exception.
     */
    method AnalizarComida(dtos: seq<AlimentoDTO>, usuarioId: string, asistente: string -> RespuestaIA, hoy: Date, ahora: TimeOfDay)
      returns (salida: Result<Salida>, prompt: Option<string>)
      requires Valid()
      modifies diaService.usuarioRepository, catalogoService.repository
      ensures Valid()
      ensures !SinAmbiguos(old(catalogoService.repository.docs), dtos) ==>
        salida == Failure(IncorrectResultSize) && prompt == None && Estado() == old(Estado())
      ensures SinAmbiguos(old(catalogoService.repository.docs), dtos) ==>
        var a := AnalisisSpec(Buscador(old(catalogoService.repository.docs)), dtos, asistente);
        && salida == Success(SalidaDe(a.resultado)) && prompt == a.prompt
        && Estado() == PersistirSpec(old(Estado()), usuarioId, a.registrar, hoy, ahora).almacenes
    {
      ghost var buscar := Buscador(catalogoService.repository.docs);
      var error, encontrados, faltantes := Particionar(dtos);
      if error.Some? {
        return Failure(error.value), None;
      }
      EncontradosEnCatalogo(buscar, dtos);
      EncontradosSinAmbiguos(catalogoService.repository.docs, dtos);
      var respuesta, toRegister, idx := ProcesarEncontrados(encontrados);
      if |faltantes| > 0 {
        var texto := ConstruirPrompt(faltantes);
        prompt := Some(texto);
        var iaJson := asistente(texto);
        if iaJson.ErrorIA? {
          salida := Success(SalidaError(iaJson.mensaje));
          return;
        }
        respuesta, toRegister := IntegrarIA(respuesta, toRegister, idx, iaJson.items, EntradasEncontrados(buscar, encontrados));
      } else {
        prompt := None;
      }
      salida := Success(SalidaRespuesta(Json(respuesta)));
      Persistir(toRegister, usuarioId, hoy, ahora);
    }

    /**
     * Lines 148-157: the found foods and the missing ones, in input order, or
     * the exception of the first lookup whose name two entries share.
     */
    method Particionar(dtos: seq<AlimentoDTO>) returns (error: Option<Error>, encontrados: seq<AlimentoDTO>, faltantes: seq<AlimentoDTO>)
      ensures error.Some? <==> !SinAmbiguos(catalogoService.repository.docs, dtos)
      ensures error.Some? ==> error.value == IncorrectResultSize
      ensures error.None? ==> encontrados == Encontrados(Buscador(catalogoService.repository.docs), dtos)
      ensures error.None? ==> faltantes == Faltantes(Buscador(catalogoService.repository.docs), dtos)
    {
      ghost var docs := catalogoService.repository.docs;
      ghost var buscar := Buscador(docs);
      error, encontrados, faltantes := None, [], [];
      var i := 0;
      while i < |dtos|
        invariant 0 <= i <= |dtos|
        invariant SinAmbiguos(docs, dtos[..i])
        invariant encontrados == Encontrados(buscar, dtos[..i])
        invariant faltantes == Faltantes(buscar, dtos[..i])
      {
        assert dtos[..i + 1][..i] == dtos[..i];
        var dto := dtos[i];
        var consulta := catalogoService.ObtenerPorNombre(dto.nombre);
        if consulta.Failure? {
          SinAmbiguosFalla(docs, dtos, i);
          return Some(consulta.error), encontrados, faltantes;
        }
        SinAmbiguosPaso(docs, dtos, i);
        var existe := consulta.value.Some?;
        assert existe == buscar(dto.nombre).Some?;
        if dto.gramos > 0.0 && existe {
          encontrados := encontrados + [dto];
        } else {
          faltantes := faltantes + [dto];
        }
        i := i + 1;
      }
      assert dtos[..|dtos|] == dtos;
    }

    /** Lines 159-186: each found food scaled, put under the next key and queued for registration. */
    method ProcesarEncontrados(encontrados: seq<AlimentoDTO>) returns (respuesta: Respuesta, toRegister: seq<Alimento>, idx: nat)
      requires TodosEncontrados(Buscador(catalogoService.repository.docs), encontrados)
      requires SinAmbiguos(catalogoService.repository.docs, encontrados)
      ensures idx == |encontrados| + 1
      ensures respuesta == Numerar(EntradasEncontrados(Buscador(catalogoService.repository.docs), encontrados), 1)
      ensures toRegister == RegistrosEncontrados(Buscador(catalogoService.repository.docs), encontrados)
    {
      ghost var buscar := Buscador(catalogoService.repository.docs);
      respuesta, toRegister := map[], [];
      idx := 1;
      var i := 0;
      while i < |encontrados|
        invariant 0 <= i <= |encontrados| && idx == i + 1
        invariant respuesta == Numerar(EntradasEncontrados(buscar, encontrados[..i]), 1)
        invariant toRegister == RegistrosEncontrados(buscar, encontrados[..i])
      {
        ProcesarPaso(buscar, encontrados, i);
        var entrada, raw := Escalar(encontrados[i]);
        respuesta := respuesta[idx := entrada];
        toRegister := toRegister + [raw];
        idx := idx + 1;
        i := i + 1;
      }
      assert encontrados[..|encontrados|] == encontrados;
    }

    /** Lines 164-183 for one found food: its catalog entry scaled to its grams. */
    method Escalar(dto: AlimentoDTO) returns (entrada: Entrada, raw: Alimento)
      requires Buscador(catalogoService.repository.docs)(dto.nombre).Some?
      requires !Ambiguous(catalogoService.repository.docs, Nombre, dto.nombre)
      ensures entrada == EntradaEncontrado(CatDe(Buscador(catalogoService.repository.docs), dto), dto)
      ensures raw == RegistroEncontrado(CatDe(Buscador(catalogoService.repository.docs), dto), dto)
    {
      var cat := catalogoService.ObtenerPorNombre(dto.nombre).value.value.body;
      assert cat == CatDe(Buscador(catalogoService.repository.docs), dto);
      var factor := dto.gramos / 100.0;
      var m := MacrosEncontrado(cat, factor);
      var prot, carb, gras := m.proteinasG, m.carbohidratosG, m.grasasG;
      assert m == MacrosEncontrado(cat, dto.gramos / 100.0);
      entrada := Entrada(prot, carb, gras, None);
      assert entrada == EntradaEncontrado(cat, dto);
      raw := Alimento(cat.nombre, JavaMath.JavaIntRound(dto.gramos), CaloriasCalculator.CalcularCalorias(prot, carb, gras),
                      prot, carb, gras);
    }

    /** Lines 191-197: the prompt built with a StringBuilder. */
    static method ConstruirPrompt(faltantes: seq<AlimentoDTO>) returns (prompt: string)
      ensures prompt == Prompt(faltantes)
    {
      prompt := "RgstrAlim";
      var i := 0;
      while i < |faltantes|
        invariant 0 <= i <= |faltantes|
        invariant prompt == Prompt(faltantes[..i])
      {
        assert faltantes[..i + 1][..i] == faltantes[..i];
        var dto := faltantes[i];
        prompt := prompt + " " + dto.nombre + " " + Text.IntToString(JavaMath.JavaIntRound(dto.gramos));
        i := i + 1;
      }
      assert faltantes[..|faltantes|] == faltantes;
    }

    /**
     * Lines 241-266: each of the assistant's foods put under the next key and
     * queued for registration; idx goes on from the found foods.
     */
    static method IntegrarIA(respuesta0: Respuesta, toRegister0: seq<Alimento>, idx0: nat, items: seq<ItemIA>,
                             ghost entradas: seq<Entrada>)
      returns (respuesta: Respuesta, toRegister: seq<Alimento>)
      requires respuesta0 == Numerar(entradas, 1) && idx0 == |entradas| + 1
      ensures respuesta == Numerar(entradas + EntradasIA(items), 1)
      ensures toRegister == toRegister0 + RegistrosIA(items)
    {
      respuesta, toRegister := respuesta0, toRegister0;
      var idx := idx0;
      var j := 0;
      assert entradas + EntradasIA(items[..0]) == entradas;
      while j < |items|
        invariant 0 <= j <= |items| && idx == |entradas| + j + 1
        invariant respuesta == Numerar(entradas + EntradasIA(items[..j]), 1)
        invariant toRegister == toRegister0 + RegistrosIA(items[..j])
      {
        IntegrarPaso(entradas, items, j);
        IAPaso(items, j);
        var entrada, raw := LeerItemIA(items[j]);
        respuesta := respuesta[idx := entrada];
        toRegister := toRegister + [raw];
        idx := idx + 1;
        j := j + 1;
      }
      assert items[..|items|] == items;
    }

    /** Lines 243-262 for one of the assistant's foods: its macros, and its grams or 0. */
    static method LeerItemIA(d: ItemIA) returns (entrada: Entrada, raw: Alimento)
      ensures entrada == EntradaIA(d) && raw == RegistroIA(d)
    {
      var grs := if d.gramos.Some? then d.gramos.value else 0;
      assert grs == GramosIA(d);
      entrada := Entrada(d.proteinas, d.carbohidratos, d.grasas, Some(grs));
      raw := Alimento(d.nombre, grs, CaloriasCalculator.CalcularCalorias(d.proteinas, d.carbohidratos, d.grasas),
                      d.proteinas, d.carbohidratos, d.grasas);
    }

    /** Lines 272-279, run in the caller's thread: the loop stops at the first exception. */
    method Persistir(toRegister: seq<Alimento>, usuarioId: string, hoy: Date, ahora: TimeOfDay)
      requires Valid()
      modifies diaService.usuarioRepository, catalogoService.repository
      ensures Valid()
      ensures Estado() == PersistirSpec(old(Estado()), usuarioId, toRegister, hoy, ahora).almacenes
    {
      ghost var e0 := Estado();
      var i := 0;
      while i < |toRegister|
        invariant 0 <= i <= |toRegister|
        invariant Valid()
        invariant PersistirSpec(e0, usuarioId, toRegister[..i], hoy, ahora) == Avance(Estado(), None)
      {
        var ok := PersistirUno(toRegister[i], usuarioId, hoy, ahora);
        PersistirPaso(e0, usuarioId, toRegister, i, hoy, ahora);
        if !ok {
          PersistirCorte(e0, usuarioId, toRegister, i, hoy, ahora);
          return;
        }
        i := i + 1;
      }
      assert toRegister[..|toRegister|] == toRegister;
    }

    /** One iteration of the loop: save the food in the catalog if absent, then register it for the day. */
    method PersistirUno(a: Alimento, usuarioId: string, hoy: Date, ahora: TimeOfDay) returns (ok: bool)
      requires Valid()
      modifies diaService.usuarioRepository, catalogoService.repository
      ensures Valid()
      ensures var p := PasoSpec(old(Estado()), usuarioId, a, hoy, ahora);
        Estado() == p.almacenes && (ok <==> p.error.None?)
    {
      var g := catalogoService.GuardarSiNoExiste(a);
      if g.Failure? {
        return false;
      }
      var r := diaService.RegistrarAlimento(usuarioId, MacrosDTO(a.proteinasG, a.carbohidratosG, a.grasasG, a.calorias), hoy, ahora);
      ok := r.Success?;
    }
  }
}
