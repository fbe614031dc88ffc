/**
 * The plain records the services pass around: Macros, Alimento, Receta and
 * the request bodies (DTOs). They carry no behaviour of their own.
 * Boxed fields that may be null (Integer, String, List) are Options.
 */
module Modelos {
  import opened Wrappers

  /** A time of day as nanoseconds since midnight (the resolution of LocalTime). */
  type TimeOfDay = n: nat | n < 86_400_000_000_000

  /** A calendar date as a count of days (LocalDate.toEpochDay). */
  type Date = int

  /** Grams of each macronutrient (Macros). */
  datatype Macros = Macros(proteinasG: real, carbohidratosG: real, grasasG: real)

  const ZERO_MACROS: Macros := Macros(0.0, 0.0, 0.0)

  /** A consumed food, as the ledger and the catalog receive it (Alimento). */
  datatype Alimento = Alimento(
    nombre: string,
    gramos: int,
    calorias: real,
    proteinasG: real,
    carbohidratosG: real,
    grasasG: real)

  /** One food the client asks about (AlimentoDTO); the @Min(1) bound is not enforced. */
  datatype AlimentoDTO = AlimentoDTO(nombre: string, gramos: real)

  /** The amounts to add to the day (MacrosDTO), in constructor order. */
  datatype MacrosDTO = MacrosDTO(proteinas: real, carbohidratos: real, grasas: real, calorias: real)

  /** Step 1 of onboarding (BasicosDTO), the start of day already parsed. */
  datatype BasicosDTO = BasicosDTO(
    nombre: Option<string>,
    edad: Option<int>,
    sexo: Option<string>,
    pesoKg: Option<int>,
    alturaCm: Option<int>,
    horaInicioDia: Option<TimeOfDay>)

  /** Step 4 of onboarding (PreferenciasDTO). */
  datatype PreferenciasDTO = PreferenciasDTO(preferencias: Option<seq<string>>, alergias: Option<seq<string>>)

  /** The whole editable profile (PerfilUsuarioDTO). */
  datatype PerfilUsuarioDTO = PerfilUsuarioDTO(
    nombre: Option<string>,
    edad: Option<int>,
    sexo: Option<string>,
    alturaCm: Option<int>,
    pesoKg: Option<int>,
    nivelActividad: Option<string>,
    objetivo: Option<string>,
    caloriasObjetivo: Option<int>,
    macrosObjetivo: Option<Macros>,
    horaInicioDia: Option<TimeOfDay>,
    preferencias: Option<seq<string>>,
    alergias: Option<seq<string>>)

  /** The day summary (ResumenDiaDTO); fecha is the calendar date it was built on. */
  datatype ResumenDiaDTO = ResumenDiaDTO(
    fecha: Date,
    caloriasObjetivo: real,
    caloriasConsumidas: real,
    caloriasRestantes: real,
    macrosObjetivo: Macros,
    macrosConsumidos: Macros,
    macrosRestantes: Macros,
    consejosGenerados: int)

  /** A recipe of the recipe catalog (Receta); its id is kept by the store. */
  datatype Ingrediente = Ingrediente(nombre: string, gramos: real)
  datatype MacroNutrientes = MacroNutrientes(proteinas: int, carbohidratos: int, grasas: int)
  datatype Receta = Receta(
    titulo: string,
    calorias: int,
    ingredientes: seq<Ingrediente>,
    instrucciones: string,
    macroNutrientes: Option<MacroNutrientes>)
}
