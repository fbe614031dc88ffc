# caloria-backend core, modelled in Dafny

caloria-backend is the server of a calorie-tracking app. This project models its core:

- **Food catalog.** Each entry stores one food's nutrients per 100 g. Entries are keyed by name ignoring case. A new entry is built from a logged sample by rescaling it to 100 g and rounding to one decimal. `actualizar` saves without a name check, so two entries can share a name; every lookup of that name then throws, and so do `guardarSiNoExiste` and the meal analysis.
- **Day ledger.** Each user has a history of days. Each day accumulates protein, carbohydrate, fat and calories, and counts the pieces of advice asked for. A user's "current day" depends on the clock and on the user's own start of day. A summary of the day reports whole-number targets, consumed amounts and remaining amounts, the remaining ones never negative.
- **Onboarding profile.** Users complete four steps: basics, activity, objective and preferences. Each step sets a flag. `perfilCompleto` is derived from the four flags.
- **Goals.** Completing the objective step computes a calorie target with the Mifflin–St Jeor BMR. That figure is multiplied by the activity level's PAL factor and then by the objective's factor. The target is split 30/45/25 into protein, carbohydrate and fat.
- **Saved recipes.** Each user keeps a list of saved recipe ids. Recipes live in their own catalog, keyed by title ignoring case.
- **Meal analysis.** A logged meal is split into foods found in the catalog and foods still missing. Found foods are scaled from the catalog. Missing foods are sent to an assistant in a single prompt. The two are combined into one response keyed `alimento_1`, `alimento_2`, and so on. Every food is then saved to the catalog if new and added to the user's current day.

The model has this structure:

- **Value types.** Every value is a `datatype`.
- **Objects.** `Usuario`, `Dia`, the services and the stores are `class`es. Their methods update fields in place.
- **Abstraction functions.** Every class has one (`Doc()`, `Datos()`, `Estado()`).
- **Store operations.** Each is proved against a specification function over the stored state: a `seq` of documents for a catalog, or a `map` from id to user document for the users. Lemmas then state what the source promises about those functions.

Modules follow the Java packages:

- **Utilities:**
  - `RoundingUtils`
  - `JavaMath` (`Math.round` and the `(int)` narrowing)
  - `Text` (case folding, `Integer.toString`)
- **Model:**
  - `NivelActividad`
  - `ObjetivoNutricional`
  - `CatalogoAlimento`
  - `Dia`
  - `Usuario`
  - `Modelos` (the plain records and DTOs)
- **Stores:**
  - `Mongo` (a generic collection with `save` and the `IgnoreCase` finders, which are single-result queries: two matches raise IncorrectResultSizeDataAccessException)
  - `Repositories` (the users collection)
- **Services:** `CaloriasCalculator`, `MetabolismoService`, `CatalogoAlimentoService`, `CatalogoRecetasService`, `DiaService`, `PerfilService`, `UsuarioService`, `IAService`.

The clock is passed in as parameters:

- `hoy` is today's date, in epoch days.
- `ahora` is the time of day, in nanoseconds since midnight.

## Model

| member | source | states |
|---|---|---|
| RoundingUtils.Units | src/main/java/com/caloria/utils/RoundingUtils.java:28-32 | the number of kept units of 10^-d is non-negative and within half a unit of \|v\|·10^d |
| RoundingUtils.OneDecimal | src/main/java/com/caloria/utils/RoundingUtils.java:40-42 | oneDecimal(v) is within 0.05 of v and a whole number of tenths |
| RoundingUtils.ToInteger | src/main/java/com/caloria/utils/RoundingUtils.java:50-52 | toInteger(v) is within 0.5 of v and whole |
| RoundingUtils.RoundFn | src/main/java/com/caloria/utils/RoundingUtils.java:60-62 | every value of roundFn(d) is within half a unit of its argument and has at most d decimals |
| RoundingUtils.OneDecimalFn | src/main/java/com/caloria/utils/RoundingUtils.java:69-71 | oneDecimalFn() agrees with oneDecimal at every argument |
| RoundingUtils.IntegerFn | src/main/java/com/caloria/utils/RoundingUtils.java:78-80 | integerFn() agrees with toInteger at every argument |
| RoundingUtils.RoundAll | src/main/java/com/caloria/utils/RoundingUtils.java:28-32 | for every v, round(v, d) is within half a unit and has at most d decimals |
| RoundingUtils.RoundMagnitude | src/main/java/com/caloria/utils/RoundingUtils.java:28-32 | \|round(v, d)\| is the unit count over 10^d, and the result carries the sign of v |
| RoundingUtils.RoundHasDecimals | src/main/java/com/caloria/utils/RoundingUtils.java:28-32 | the result is a whole number of units of 10^-d |
| RoundingUtils.RoundBound | src/main/java/com/caloria/utils/RoundingUtils.java:28-32 | the rounding error is at most half a unit of the last kept decimal |
| RoundingUtils.RoundTieAwayFromZero | src/main/java/com/caloria/utils/RoundingUtils.java:28-32 | HALF_UP: an exact tie goes to the unit farther from zero, on both signs |
| RoundingUtils.RoundIdempotent | src/main/java/com/caloria/utils/RoundingUtils.java:28-32 | rounding an already rounded value changes nothing |
| RoundingUtils.UnitsOfWhole | src/main/java/com/caloria/utils/RoundingUtils.java:28-32 | a value that is exactly n units keeps n units |
| RoundingUtils.RoundNegate | src/main/java/com/caloria/utils/RoundingUtils.java:28-32 | round(-v, d) = -round(v, d) |
| RoundingUtils.RoundNonNegative | src/main/java/com/caloria/utils/RoundingUtils.java:28-32 | a non-negative value rounds to a non-negative one |
| RoundingUtils.MathRoundIsHalfUpOnNonNegatives | src/main/java/com/caloria/model/Usuario.java:128 | on non-negative values, Math.round and toInteger agree |
| RoundingUtils.MathRoundDiffersOnNegativeTie | src/main/java/com/caloria/service/DiaService.java:79 | on -2.5 the two roundings differ (-2 against -3) |
| JavaMath.MathRound | src/main/java/com/caloria/service/DiaService.java:79 | Math.round(v) is the integer n with v - 1/2 < n ≤ v + 1/2 |
| JavaMath.MathRoundUnique | src/main/java/com/caloria/service/DiaService.java:79 | that nearest-integer property determines the result |
| JavaMath.MathRoundWhole | src/main/java/com/caloria/service/DiaService.java:79 | a whole number is its own rounding |
| JavaMath.MathRoundNonNegative | src/main/java/com/caloria/service/DiaService.java:82 | a non-negative value never rounds below zero |
| JavaMath.MathRoundMonotone | src/main/java/com/caloria/service/DiaService.java:79 | Math.round is monotone |
| JavaMath.ToInt | src/main/java/com/caloria/model/Usuario.java:128 | the (int) cast gives a signed 32-bit value congruent to its argument modulo 2^32, and equal to it when it fits |
| JavaMath.JavaIntRound | src/main/java/com/caloria/model/Usuario.java:128 | (int) Math.round(v) is a 32-bit value |
| JavaMath.JavaIntRoundInRange | src/main/java/com/caloria/model/Usuario.java:128 | below 2^31 - 1/2 the cast does not wrap, so the result is Math.round(v) |
| JavaMath.JavaIntRoundWraps | src/main/java/com/caloria/model/Usuario.java:128 | 3e9 wraps to 3000000000 - 2^32 |
| Text.LowerChar | src/main/java/com/caloria/service/MetabolismoService.java:31 | lower-casing moves exactly the letters A-Z down by 32 |
| Text.UpperChar | src/main/java/com/caloria/service/PerfilService.java:30 | upper-casing moves exactly the letters a-z up by 32 |
| Text.Lower | src/main/java/com/caloria/service/MetabolismoService.java:31 | toLowerCase keeps the length and lower-cases each character |
| Text.Upper | src/main/java/com/caloria/service/PerfilService.java:30 | toUpperCase keeps the length and upper-cases each character |
| Text.LowerIdempotent | src/main/java/com/caloria/repository/CatalogoAlimentoRepository.java:8 | lower-casing twice is lower-casing once |
| Text.EqualsIgnoreCaseEquivalence | src/main/java/com/caloria/repository/CatalogoAlimentoRepository.java:8 | matching ignoring case is reflexive, symmetric and transitive |
| Text.UpperOfConstantName | src/main/java/com/caloria/service/PerfilService.java:30 | an enum identifier upper-cases to itself, from itself and from its lower-case form |
| Text.UpperOfLower | src/main/java/com/caloria/service/PerfilService.java:32 | upper-casing ignores an earlier lower-casing |
| Text.NatToString | src/main/java/com/caloria/service/IAService.java:171 | the decimal rendering of idx is non-empty, all digits, with no leading zero |
| Text.IntToString | src/main/java/com/caloria/service/IAService.java:196 | Integer.toString is never empty |
| Text.ParseNatToString | src/main/java/com/caloria/service/IAService.java:171 | reading the digits back gives the number |
| Text.NatToStringInjective | src/main/java/com/caloria/service/IAService.java:171 | distinct numbers render as distinct strings |
| CaloriasCalculator.CalcularCalorias | src/main/java/com/caloria/service/CaloriasCalculator.java:24-30 | the energy is non-negative for non-negative macros, and zero for zero macros |
| CaloriasCalculator.CaloriasAdditive | src/main/java/com/caloria/service/CaloriasCalculator.java:24-30 | energy is additive over servings |
| CaloriasCalculator.CaloriasPerGram | src/main/java/com/caloria/service/CaloriasCalculator.java:24-30 | each gram of protein or carbohydrate adds 4 kcal, each gram of fat 9 |
| NivelActividad.Pal | src/main/java/com/caloria/model/NivelActividad.java:43 | every PAL factor is above 1 |
| NivelActividad.ValueOfIgnoringCase | src/main/java/com/caloria/service/PerfilService.java:30 | a success is the constant whose name is the upper-cased string; a failure (IllegalArgumentException) means that no constant has that name |
| NivelActividad.ExactlySixLevels | src/main/java/com/caloria/model/NivelActividad.java:15-25 | values() lists each of the six levels exactly once |
| NivelActividad.PalTable | src/main/java/com/caloria/model/NivelActividad.java:15-25 | the factors in declaration order are 1.20, 1.35, 1.55, 1.725, 1.90, 2.20 |
| NivelActividad.PalStrictlyIncreasing | src/main/java/com/caloria/model/NivelActividad.java:15-25 | PAL strictly increases in declaration order |
| NivelActividad.ValueOfName | src/main/java/com/caloria/service/PerfilService.java:30 | every level is found again from its name |
| NivelActividad.ValueOfLowerName | src/main/java/com/caloria/service/PerfilService.java:30 | every level is found again from its lower-case name |
| ObjetivoNutricional.Factor | src/main/java/com/caloria/model/ObjetivoNutricional.java:43 | cuts are below 1, MANTENER is 1, bulks are above 1, and every factor is positive |
| ObjetivoNutricional.ValueOfIgnoringCase | src/main/java/com/caloria/service/PerfilService.java:32 | a success is the objective named by the upper-cased string; a failure means that none is |
| ObjetivoNutricional.ExactlySevenObjectives | src/main/java/com/caloria/model/ObjetivoNutricional.java:13-25 | values() lists each of the seven objectives exactly once |
| ObjetivoNutricional.FactorTable | src/main/java/com/caloria/model/ObjetivoNutricional.java:13-25 | the factors in declaration order are 0.90, 0.80, 0.75, 1.00, 1.05, 1.10, 1.15 |
| ObjetivoNutricional.FactorOrdering | src/main/java/com/caloria/model/ObjetivoNutricional.java:13-25 | cuts deepen from LIGERO to AGRESIVO; bulks grow from CONSERVADOR to AGRESIVO |
| ObjetivoNutricional.ValueOfName | src/main/java/com/caloria/service/PerfilService.java:32 | every objective is found again from its name |
| ObjetivoNutricional.ValueOfLowerName | src/main/java/com/caloria/service/PerfilService.java:32 | every objective is found again from its lower-case name |
| MetabolismoService.CalcularBmr | src/main/java/com/caloria/service/MetabolismoService.java:30-36 | Mifflin–St Jeor: 10·kg + 6.25·cm - 5·years, minus 161 for "F" ignoring case and plus 5 otherwise (null included) |
| MetabolismoService.CalcularTdee | src/main/java/com/caloria/service/MetabolismoService.java:45-47 | for a positive BMR the TDEE is above it and at most 2.2 times it; a zero BMR gives zero |
| MetabolismoService.CalcularCaloriasObjetivo | src/main/java/com/caloria/service/MetabolismoService.java:56-58 | MANTENER keeps the TDEE; a cut lands strictly between 0 and the TDEE; a bulk lands above it |
| MetabolismoService.CalcularMacrosObjetivo | src/main/java/com/caloria/service/MetabolismoService.java:71-81 | 30 % of the energy goes to protein, 25 % to fat and 45 % to carbohydrate; the split's energy is the target again; it is non-negative for a non-negative target |
| MetabolismoService.FemaleBmrIs166Below | src/main/java/com/caloria/service/MetabolismoService.java:30-36 | the female BMR is exactly 166 below the male one; "f" counts as "F"; "M" counts as null |
| MetabolismoService.BmrSensitivity | src/main/java/com/caloria/service/MetabolismoService.java:30-36 | +1 kg adds 10, +1 cm adds 6.25, +1 year takes away 5 |
| MetabolismoService.ObjetivoOrdering | src/main/java/com/caloria/service/MetabolismoService.java:56-58 | the target is ordered by objective: AGRESIVO cut < MEDIO < LIGERO < TDEE < CONSERVADOR bulk < ESTANDAR < AGRESIVO |
| MetabolismoService.TdeeMonotoneInLevel | src/main/java/com/caloria/service/MetabolismoService.java:45-47 | a more active level gives a higher TDEE |
| MetabolismoService.MacrosLinear | src/main/java/com/caloria/service/MetabolismoService.java:71-81 | the macro split is additive in the calorie target |
| MetabolismoService.WorkedExample | src/main/java/com/caloria/service/MetabolismoService.java:30-81 | a man of 80 kg, 180 cm and 30 years has a BMR of 1780; MODERADA with MANTENER gives 2759 kcal and its split |
| CatalogoAlimento.Rescale | src/main/java/com/caloria/model/CatalogoAlimento.java:31-38 | each amount is the sample's amount times 100/gramos, kept to one decimal |
| CatalogoAlimento.From | src/main/java/com/caloria/model/CatalogoAlimento.java:30-40 | from(a) fails (the factor is infinite) exactly when gramos is 0; otherwise it keeps the name and rescales all four amounts to 100 g |
| CatalogoAlimento.FromHundredGrams | src/main/java/com/caloria/model/CatalogoAlimento.java:30-40 | a 100 g sample is only rounded |
| CatalogoAlimento.RescaleHundred | src/main/java/com/caloria/model/CatalogoAlimento.java:31-35 | at 100 g the factor is 1, so rescaling is just rounding |
| CatalogoAlimento.ScalesBack | src/main/java/com/caloria/model/CatalogoAlimento.java:30-40 | a per-100 g amount, taken back to the sample's grams, is within 0.05 per 100 g of the sample |
| CatalogoAlimento.ScaledError | src/main/java/com/caloria/model/CatalogoAlimento.java:31-38 | an amount within 0.05 of the sample times the factor is, taken back by the grams, within 0.05 per 100 g of the sample |
| Mongo.IndexOfId | src/main/java/com/caloria/service/CatalogoAlimentoService.java:80-82 | findById gives the position of the document with that id, or says that none has it |
| Mongo.SaveSpec | src/main/java/com/caloria/service/CatalogoAlimentoService.java:80-82 | save on a store state: replace the document of its id, or append it, a missing id taking the counter; its properties are SaveShape to SaveIdempotent |
| Mongo.SaveShape | src/main/java/com/caloria/service/CatalogoAlimentoService.java:80-82 | save replaces the document with the same id or appends a new one; a document without an id gets the next id |
| Mongo.SavePreservesWellFormed | src/main/java/com/caloria/service/CatalogoAlimentoService.java:80-82 | ids stay unique and below the counter, and the returned document is stored with the given body |
| Mongo.UniqueIndex | src/main/java/com/caloria/service/CatalogoAlimentoService.java:80-82 | an id sits at only one position |
| Mongo.SaveKeepsOthers | src/main/java/com/caloria/service/CatalogoAlimentoService.java:80-82 | every other id keeps its document |
| Mongo.SaveIdempotent | src/main/java/com/caloria/service/CatalogoAlimentoService.java:80-82 | saving the returned document again changes nothing |
| Mongo.FindIgnoreCase | src/main/java/com/caloria/repository/CatalogoAlimentoRepository.java:8 | the first match ignoring case, or the statement that there is none; it is what the single-result finder returns whenever the query is not ambiguous |
| Mongo.Ambiguous | src/main/java/com/caloria/repository/CatalogoAlimentoRepository.java:8 | two stored documents have keys equal to the query ignoring case, the case in which the single-result finder throws |
| Mongo.FindSecond | src/main/java/com/caloria/repository/CatalogoAlimentoRepository.java:8 | after the first match another one is left exactly when two documents match |
| Mongo.FindOneIgnoreCase | src/main/java/com/caloria/repository/CatalogoAlimentoRepository.java:8 | the single-result query findByNombreIgnoreCase: IncorrectResultSize exactly when two documents match; empty exactly when none does; otherwise the one match, and no other document matches |
| Mongo.UniqueNotAmbiguous | src/main/java/com/caloria/repository/CatalogoRecetasRepository.java:8 | on a store with unique keys no query is ambiguous, and the single-result query gives the first match |
| Mongo.InsertIfAbsentOutcome | src/main/java/com/caloria/service/CatalogoRecetasService.java:55-58 | insert-if-absent on a store where the key matches at most once: a match leaves the store alone and is returned; otherwise the document is appended under the next id |
| Mongo.InsertIfAbsentResultOutcome | src/main/java/com/caloria/service/CatalogoAlimentoService.java:59-62 | findBy…IgnoreCase(…).orElseGet(save) fails with IncorrectResultSize exactly when two documents have the key, and otherwise is insert-if-absent |
| Mongo.InsertIfAbsentResultUnique | src/main/java/com/caloria/service/CatalogoRecetasService.java:55-58 | on a store with unique keys the single-result insert-if-absent always succeeds, with the insert-if-absent result |
| Mongo.InsertIfAbsentKeepsUniqueKeys | src/main/java/com/caloria/service/CatalogoRecetasService.java:55-58 | insert-if-absent keeps the keys unique ignoring case |
| Mongo.InsertIfAbsentStored | src/main/java/com/caloria/service/CatalogoRecetasService.java:55-58 | the returned document is stored and has an id |
| Mongo.InsertIfAbsentIdempotent | src/main/java/com/caloria/service/CatalogoRecetasService.java:55-58 | a second call with an equal key adds nothing, and for a new document returns the same one |
| Mongo.FindUnique | src/main/java/com/caloria/repository/CatalogoRecetasRepository.java:8 | with unique keys, the finder returns the one matching document |
| Mongo.InsertIfAbsentSpec | src/main/java/com/caloria/service/CatalogoRecetasService.java:55-58 | insert-if-absent on the first match: the matching document, or the document saved; its properties are InsertIfAbsentOutcome to InsertIfAbsentIdempotent |
| Mongo.InsertIfAbsentResult | src/main/java/com/caloria/service/CatalogoAlimentoService.java:59-62 | findBy…IgnoreCase(…).orElseGet(save) on a store state, with the finder's IncorrectResultSize; its properties are InsertIfAbsentResultOutcome and InsertIfAbsentResultUnique |
| Mongo.FindAfterAppend | src/main/java/com/caloria/repository/CatalogoRecetasRepository.java:8 | after appending a match to a store that had none, that match is found |
| Mongo.Collection.constructor | src/main/java/com/caloria/repository/CatalogoAlimentoRepository.java:7 | a new collection is empty |
| Mongo.Collection.Save | src/main/java/com/caloria/service/CatalogoAlimentoService.java:80-82 | the new state and the returned document are those of the save specification |
| Mongo.Collection.FindByIgnoreCase | src/main/java/com/caloria/repository/CatalogoAlimentoRepository.java:8 | IncorrectResultSize exactly when two stored documents match; empty exactly when none does; otherwise the stored match |
| Mongo.Collection.InsertIfAbsent | src/main/java/com/caloria/service/CatalogoAlimentoService.java:59-62 | the new state and the result are those of findBy…IgnoreCase(…).orElseGet(save); on two matches it fails and saves nothing |
| Repositories.UsuarioRepository.FindById | src/main/java/com/caloria/service/UsuarioService.java:97-100 | an unknown id gives empty; otherwise a fresh object graph holding the stored state |
| Repositories.UsuarioRepository.Save | src/main/java/com/caloria/service/DiaService.java:137 | the user's current state is upserted under its id |
| CatalogoAlimentoService.GuardarSiNoExisteOutcome | src/main/java/com/caloria/service/CatalogoAlimentoService.java:44-50 | a name two entries share fails with IncorrectResultSize; a name one entry has returns it with the store unchanged; a new name appends from(a) under the next id; a new name with zero grams fails |
| CatalogoAlimentoService.GuardarSiNoExisteSpec | src/main/java/com/caloria/service/CatalogoAlimentoService.java:44-50 | guardarSiNoExiste on a store state: the finder's failure, the entry found, or from(a) saved, or from's failure; its outcomes are GuardarSiNoExisteOutcome |
| CatalogoAlimentoService.GuardarSiNoExisteIsInsertIfAbsent | src/main/java/com/caloria/service/CatalogoAlimentoService.java:44-50 | guardarSiNoExiste is the single-result insert-if-absent of from(a), failure on a shared name included |
| CatalogoAlimentoService.GuardarSiNoExisteIdempotent | src/main/java/com/caloria/service/CatalogoAlimentoService.java:44-50 | a second call with the same name in any case leaves the store alone |
| CatalogoAlimentoService.GuardarSiNoExisteKeepsUniqueNames | src/main/java/com/caloria/service/CatalogoAlimentoService.java:44-50 | the catalog never gains a second entry of the same name |
| CatalogoAlimentoService.ActualizarIgnoresNames | src/main/java/com/caloria/service/CatalogoAlimentoService.java:80-82 | actualizar does no name check: on a given store it creates a duplicate name |
| CatalogoAlimentoService.CatalogoAlimentoService.constructor | src/main/java/com/caloria/service/CatalogoAlimentoService.java:24 | the service wraps the given repository |
| CatalogoAlimentoService.CatalogoAlimentoService.ObtenerPorNombre | src/main/java/com/caloria/service/CatalogoAlimentoService.java:32-34 | IncorrectResultSize exactly when two entries have the name ignoring case; empty exactly when none has it; otherwise the stored match |
| CatalogoAlimentoService.CatalogoAlimentoService.GuardarSiNoExiste | src/main/java/com/caloria/service/CatalogoAlimentoService.java:44-50 | result and new store follow the guardarSiNoExiste specification, the shared-name failure included; a failure leaves the store unchanged |
| CatalogoAlimentoService.CatalogoAlimentoService.GuardarSiNoExisteCatalogo | src/main/java/com/caloria/service/CatalogoAlimentoService.java:59-62 | the single-result insert-if-absent of the entry as given: IncorrectResultSize with the store unchanged on a shared name |
| CatalogoAlimentoService.CatalogoAlimentoService.ListarTodos | src/main/java/com/caloria/service/CatalogoAlimentoService.java:70-72 | every listed entry has its own distinct id |
| CatalogoAlimentoService.CatalogoAlimentoService.Actualizar | src/main/java/com/caloria/service/CatalogoAlimentoService.java:80-82 | a plain save by id |
| CatalogoRecetasService.SaveAllLast | src/main/java/com/caloria/service/CatalogoRecetasService.java:39-44 | one more recipe is the loop on the others, then saveIfNotExists on it |
| CatalogoRecetasService.SaveAllSpec | src/main/java/com/caloria/service/CatalogoRecetasService.java:36-46 | the loop of parseYGuardar on a store state: saveIfNotExists on each recipe in turn, collecting what each returns; titles stay unique, so the finder never throws (InsertIfAbsentResultUnique) |
| CatalogoRecetasService.SaveAllPaso | src/main/java/com/caloria/service/CatalogoRecetasService.java:39-44 | the loop after i + 1 recipes is the loop after i, then one saveIfNotExists |
| CatalogoRecetasService.SaveAllKeepsStore | src/main/java/com/caloria/service/CatalogoRecetasService.java:36-46 | the recipe store stays well formed with unique titles; it only grows, by at most one per recipe |
| CatalogoRecetasService.SaveAllLista | src/main/java/com/caloria/service/CatalogoRecetasService.java:36-46 | the returned list has one stored recipe per input, with the input's title ignoring case |
| CatalogoRecetasService.SaveAllIdempotent | src/main/java/com/caloria/service/CatalogoRecetasService.java:36-46 | running the loop again on the same recipes adds nothing and returns the same list |
| CatalogoRecetasService.SaveAllFixed | src/main/java/com/caloria/service/CatalogoRecetasService.java:36-46 | a store that already holds the listed recipes is left alone |
| CatalogoRecetasService.FindAllByIdsSpec | src/main/java/com/caloria/service/CatalogoRecetasService.java:66-68 | the result holds exactly the stored recipes whose id is listed |
| CatalogoRecetasService.CatalogoRecetasService.constructor | src/main/java/com/caloria/service/CatalogoRecetasService.java:25 | the service wraps the given repository |
| CatalogoRecetasService.CatalogoRecetasService.SaveIfNotExists | src/main/java/com/caloria/service/CatalogoRecetasService.java:55-58 | insert-if-absent by title; the result is stored and has an id |
| CatalogoRecetasService.CatalogoRecetasService.ParseYGuardar | src/main/java/com/caloria/service/CatalogoRecetasService.java:36-46 | the new store and the returned list are those of saveIfNotExists on each recipe in turn |
| CatalogoRecetasService.CatalogoRecetasService.FindAllByIds | src/main/java/com/caloria/service/CatalogoRecetasService.java:66-68 | the result holds exactly the stored recipes with a listed id |
| Dia.NuevoDia | src/main/java/com/caloria/model/Dia.java:21-33 | a new day starts at zero for all four sums and the counter, with the given date and start |
| Dia.Agregar | src/main/java/com/caloria/model/Dia.java:43-48 | agregarMacronutrientes on a day's state: each sum grows by its amount; its properties are AgregarAdds to AgregarCombines |
| Dia.NuevoCiclo | src/main/java/com/caloria/model/Dia.java:56-59 | esNuevoDia: the clock is strictly after the day's start |
| Dia.Resetear | src/main/java/com/caloria/model/Dia.java:64-73 | resetearDia on a day's state: sums at zero and today's date after the start, unchanged before; its properties are ResetearOutcome |
| Dia.AgregarAdds | src/main/java/com/caloria/model/Dia.java:43-48 | each sum grows by exactly its amount; the date, start and counter are kept |
| Dia.AgregarMonotone | src/main/java/com/caloria/model/Dia.java:43-48 | non-negative amounts never decrease a sum |
| Dia.AgregarCombines | src/main/java/com/caloria/model/Dia.java:43-48 | two additions commute and equal one addition of the totals |
| Dia.ResetearOutcome | src/main/java/com/caloria/model/Dia.java:64-73 | strictly after the start: sums at zero, date set to today, counter kept; otherwise unchanged; resetting again does nothing |
| Dia.Dia.constructor | src/main/java/com/caloria/model/Usuario.java:89-91 | the object holds a new day |
| Dia.Dia.FromDoc | src/main/java/com/caloria/model/Dia.java:21-33 | a day read back holds the stored state |
| Dia.Dia.AgregarMacronutrientes | src/main/java/com/caloria/model/Dia.java:43-48 | the new state is the day with the amounts added |
| Dia.Dia.EsNuevoDia | src/main/java/com/caloria/model/Dia.java:56-59 | true exactly when the clock is strictly after the start of day |
| Dia.Dia.ResetearDia | src/main/java/com/caloria/model/Dia.java:64-73 | the new state is the reset day |
| Dia.Dia.IncrementarConsejosGenerados | src/main/java/com/caloria/model/Dia.java:79-81 | the counter goes up by one and nothing else changes |
| Usuario.EffectiveDate | src/main/java/com/caloria/model/Usuario.java:79-81 | before the start of day the date is yesterday, at or after it today |
| Usuario.FindDay | src/main/java/com/caloria/model/Usuario.java:83-87 | the first day with the date, or a statement that none has it |
| Usuario.CurrentDay | src/main/java/com/caloria/model/Usuario.java:74-94 | the returned position holds a day of the date, and the history only grows |
| Usuario.CurrentDayOutcome | src/main/java/com/caloria/model/Usuario.java:74-94 | an existing day is the first one of that date, with the history unchanged; otherwise one new empty day is appended and returned |
| Usuario.CurrentDayIdempotent | src/main/java/com/caloria/model/Usuario.java:74-94 | a second call with the same clock appends nothing and returns the same day |
| Usuario.FindDayAfterAppend | src/main/java/com/caloria/model/Usuario.java:89-93 | the appended day is found afterwards |
| Usuario.CurrentDayKeepsDistinctDates | src/main/java/com/caloria/model/Usuario.java:74-94 | the history keeps at most one day per date |
| Usuario.ActualizarOnlyCurrentDay | src/main/java/com/caloria/model/Usuario.java:106-117 | without a start of day it fails (NullPointerException); otherwise only the current day changes, growing by each amount rounded to one decimal |
| Usuario.ActualizarSpec | src/main/java/com/caloria/model/Usuario.java:106-117 | actualizarMacronutrientes on a user's state: NullPointer without a start of day, otherwise the current day grows by the one-decimal amounts; its properties are ActualizarOnlyCurrentDay |
| Usuario.AplicarMetasOutcome | src/main/java/com/caloria/model/Usuario.java:126-137 | the calorie target is whole, and is toInteger(calorias) when it fits an int; each macro is within 0.05 and has one decimal; nothing else changes |
| Usuario.AplicarMetasSpec | src/main/java/com/caloria/model/Usuario.java:126-137 | aplicarMetas on a profile: the (int) Math.round calorie goal and the one-decimal macro goals; its properties are AplicarMetasOutcome |
| Usuario.Docs | src/main/java/com/caloria/model/Usuario.java:61 | the states of the day objects, one per day, in order |
| Usuario.DocsAfterChangeAt | src/main/java/com/caloria/model/Usuario.java:61 | when only one day object changed, the history state changes at that position only |
| Usuario.Usuario.Nuevo | src/main/java/com/caloria/service/UsuarioService.java:58-61 | new Usuario() with its id: the initial user state |
| Usuario.Usuario.Load | src/main/java/com/caloria/model/Usuario.java:27-63 | a loaded user is a fresh object graph holding the stored state |
| Usuario.Usuario.ObtenerDiaActual | src/main/java/com/caloria/model/Usuario.java:74-94 | fails without a start of day; otherwise the history becomes that of the current-day specification, and the returned object is at its position |
| Usuario.Usuario.ActualizarMacronutrientes | src/main/java/com/caloria/model/Usuario.java:106-117 | the new state, or the failure, is the update specification |
| Usuario.Usuario.AplicarMetas | src/main/java/com/caloria/model/Usuario.java:126-137 | only the two goal fields change, as the specification says |
| DiaService.Max0 | src/main/java/com/caloria/service/DiaService.java:82 | Math.max(0, x) is at least 0 and x, and is one of them |
| DiaService.RdInt | src/main/java/com/caloria/service/DiaService.java:79 | a whole number within half a unit |
| DiaService.Objetivos | src/main/java/com/caloria/service/DiaService.java:65-67 | missing macro targets count as a zero Macros |
| DiaService.Resumen | src/main/java/com/caloria/service/DiaService.java:59-114 | the summary DTO of a profile and a day: today's date, targets and consumed amounts Math.round-ed, remaining amounts clamped at 0 and rounded, the day's advice count; its properties are ResumenReports to SinObjetivosDeMacros |
| DiaService.ResumenReports | src/main/java/com/caloria/service/DiaService.java:52-115 | every reported amount is whole and within half a unit of the exact one; remaining amounts are never negative and are 0 once the target is reached; date and counter are reported |
| DiaService.RemainingZeroIff | src/main/java/com/caloria/service/DiaService.java:82 | a remaining amount is 0 exactly when less than half a unit is left |
| DiaService.SinObjetivosDeMacros | src/main/java/com/caloria/service/DiaService.java:65-67 | a user without macro targets is shown zero targets and zero remaining |
| DiaService.ResumenDelDiaSpec | src/main/java/com/caloria/service/DiaService.java:52-115 | getResumenDelDia on the stored users: NOT_FOUND, NullPointer without a start of day, or the Resumen of the current day |
| DiaService.RegistrarSpec | src/main/java/com/caloria/service/DiaService.java:124-138 | registrarAlimento on the stored users: NOT_FOUND, or that user replaced by ActualizarSpec of it; its outcomes are RegistrarOutcome |
| DiaService.ConConsejo | src/main/java/com/caloria/service/DiaService.java:161 | the user with the advice counter of its current day raised by one |
| DiaService.SolicitarConsejoSpec | src/main/java/com/caloria/service/DiaService.java:148-166 | solicitarConsejo on the stored users: NOT_FOUND, BAD_REQUEST at 100, or the raised counter saved and the new summary; its outcomes are SolicitarConsejoOutcome |
| DiaService.ConConsejoShape | src/main/java/com/caloria/service/DiaService.java:161 | the state after the counter goes up on the current day |
| DiaService.SolicitarConsejoOutcome | src/main/java/com/caloria/service/DiaService.java:148-166 | unknown user: NOT_FOUND; a failure saves nothing; at the limit BAD_REQUEST; below it the day's counter goes up by one, never past the limit, and the summary shows the new count |
| DiaService.SolicitarConsejoExito | src/main/java/com/caloria/service/DiaService.java:160-165 | the successful exit saves the raised counter and returns that user's summary |
| DiaService.ConConsejoKeepsCurrentDay | src/main/java/com/caloria/service/DiaService.java:165 | the changed day, date kept, is still the current day for the summary |
| DiaService.FindDayReplace | src/main/java/com/caloria/model/Usuario.java:83-87 | replacing the found day by one of the same date leaves it the first day of that date |
| DiaService.RegistrarOutcome | src/main/java/com/caloria/service/DiaService.java:124-138 | NOT_FOUND and NullPointer paths; otherwise only this user changes, and its current day grows by the rounded amounts |
| DiaService.DiaService.constructor | src/main/java/com/caloria/service/DiaService.java:40 | the service wraps the given repository |
| DiaService.DiaService.GetResumenDelDia | src/main/java/com/caloria/service/DiaService.java:52-115 | the result is the summary specification, and nothing is saved |
| DiaService.DiaService.RegistrarAlimento | src/main/java/com/caloria/service/DiaService.java:124-138 | the new store, or the failure with the store unchanged, is the specification |
| DiaService.DiaService.ContarConsejo | src/main/java/com/caloria/service/DiaService.java:161 | only the current day's counter moves |
| DiaService.DiaService.SolicitarConsejo | src/main/java/com/caloria/service/DiaService.java:148-166 | the new store and the result are those of the advice specification |
| PerfilService.Revisar | src/main/java/com/caloria/service/PerfilService.java:83-94 | perfilCompleto becomes the AND of the four step flags, and nothing else moves |
| PerfilService.Marcar | src/main/java/com/caloria/service/PerfilService.java:56-81 | a marking on a profile: its step flag, then the review; its properties are MarcarOutcome to TresPasosCompletan |
| PerfilService.MarcarOutcome | src/main/java/com/caloria/service/PerfilService.java:56-81 | marking sets its own flag, keeps the other step flags and all data, and leaves the profile coherent |
| PerfilService.MarcarIdempotentYConmutativo | src/main/java/com/caloria/service/PerfilService.java:56-81 | marking twice is marking once; steps commute |
| PerfilService.TresPasosCompletan | src/main/java/com/caloria/service/PerfilService.java:56-94 | with preferences done, marking the three steps in any order completes the profile |
| PerfilService.Metas | src/main/java/com/caloria/service/PerfilService.java:29-34 | lines 29-34: NullPointer for a missing metric or name, UnknownConstant for an unknown one, otherwise the calorie target of the BMR, TDEE and objective chain and its split |
| PerfilService.Completar | src/main/java/com/caloria/service/PerfilService.java:25-41 | completarObjetivo on a profile in one pass: objective, goals, step flag and review, or the failure of Metas; its outcomes are CompletarOutcome |
| PerfilService.CompletarOutcome | src/main/java/com/caloria/service/PerfilService.java:25-41 | null metrics or names fail with NullPointer; unknown names fail with UnknownConstant (the IllegalArgumentException of Enum.valueOf); it succeeds exactly when everything is present and valid; then the objective, int-rounded calories and one-decimal macros of the whole chain are set, the flag is set, and the rest is kept |
| PerfilService.CompletarIdempotent | src/main/java/com/caloria/service/PerfilService.java:25-41 | completing again with the same names gives the same profile |
| PerfilService.CompletarObjetivoSpec | src/main/java/com/caloria/service/PerfilService.java:25-41 | completarObjetivo on the stored users in one pass: NOT_FOUND, the failure of Completar, or that profile replaced |
| PerfilService.MarcarSpec | src/main/java/com/caloria/service/PerfilService.java:56-81 | a marking on the stored users: NOT_FOUND, or that profile replaced by Marcar of it |
| PerfilService.RecalcularMetasSpec | src/main/java/com/caloria/service/PerfilService.java:47-54 | recalcularMetas on the stored users: NOT_FOUND, completarObjetivo when level and objective are stored, and the copy read before; its outcomes are RecalcularOutcome |
| PerfilService.OperacionesSobreElAlmacen | src/main/java/com/caloria/service/PerfilService.java:25-81 | an unknown id gives NOT_FOUND; otherwise only that user's profile changes, and it stays coherent |
| PerfilService.RecalcularOutcome | src/main/java/com/caloria/service/PerfilService.java:47-54 | without both level and objective nothing changes; with both it is completarObjetivo on them, and it returns the copy read before |
| PerfilService.CompletarObjetivoAsWritten | src/main/java/com/caloria/service/PerfilService.java:25-41 | completarObjetivo as written, with a call-depth bound: marcarObjetivoCompleto on a reloaded copy, then the stale copy saved over it; its defects are CicloSinSalida and FlagDeObjetivoPerdido |
| PerfilService.MarcarAsWritten | src/main/java/com/caloria/service/PerfilService.java:56-94 | a marking as written: on four done steps the review calls completarObjetivo again; its defect is MarcarSinSalida |
| PerfilService.CicloSinSalida | src/main/java/com/caloria/service/PerfilService.java:25-94 | as written: with the three other steps stored, completarObjetivo never succeeds, whatever the stack depth: it fails on the goals or on the nested call, and nothing is saved |
| PerfilService.CicloSinObjetivo | src/main/java/com/caloria/service/PerfilService.java:25-41 | as written, first mode: with the three other steps stored and no objective stored yet, the nested completarObjetivo gets the null objective and fails one level down with the failure of the goals on it; with a valid stored level that is the NullPointerException of line 32 |
| PerfilService.CicloDesbordado | src/main/java/com/caloria/service/PerfilService.java:25-94 | as written, second mode: with the three other steps stored and a valid level and objective stored, the calls go round until the stack runs out (StackOverflowError), at any depth |
| PerfilService.MarcarSinSalida | src/main/java/com/caloria/service/PerfilService.java:75-90 | as written: a mark that completes all four steps never succeeds: it ends in a NullPointerException when no objective is stored and in a StackOverflowError when a valid one is |
| PerfilService.MarcarCompletaElPerfil | src/main/java/com/caloria/service/PerfilService.java:56-94 | corrected: that mark saves perfilCompleto as true |
| PerfilService.FlagDeObjetivoPerdido | src/main/java/com/caloria/service/PerfilService.java:36-40 | as written: the save at line 40 overwrites the flag set by line 38, while the one-pass version keeps it |
| PerfilService.FlagDeObjetivoPerdidoEjemplo | src/main/java/com/caloria/service/PerfilService.java:36-40 | a concrete user whose objective flag is lost as written and kept when corrected |
| PerfilService.CompletarCompletaElPerfil | src/main/java/com/caloria/service/PerfilService.java:25-41 | corrected: with the three other steps done, completarObjetivo completes the profile |
| PerfilService.PerfilService.constructor | src/main/java/com/caloria/service/PerfilService.java:19 | the service wraps the given repository |
| PerfilService.PerfilService.RevisarPerfilCompleto | src/main/java/com/caloria/service/PerfilService.java:83-94 | the loaded user's profile becomes Revisar of it |
| PerfilService.PerfilService.FijarObjetivo | src/main/java/com/caloria/service/PerfilService.java:36-38 | objective, goals, step flag and review applied to the loaded user |
| PerfilService.PerfilService.CompletarObjetivo | src/main/java/com/caloria/service/PerfilService.java:25-41 | the new store and the result follow the one-pass specification; a failure saves nothing |
| PerfilService.PerfilService.RecalcularMetas | src/main/java/com/caloria/service/PerfilService.java:47-54 | the new store and the returned copy follow the specification |
| PerfilService.PerfilService.FijarPaso | src/main/java/com/caloria/service/PerfilService.java:60-61 | the step flag set, then the review, on the loaded user |
| PerfilService.PerfilService.MarcarPaso | src/main/java/com/caloria/service/PerfilService.java:56-81 | load, mark, review and save, as the marking specification says |
| PerfilService.PerfilService.MarcarBasicosCompletos | src/main/java/com/caloria/service/PerfilService.java:57-63 | the marking specification for the basics step |
| PerfilService.PerfilService.MarcarActividadCompleta | src/main/java/com/caloria/service/PerfilService.java:66-72 | the marking specification for the activity step |
| PerfilService.PerfilService.MarcarObjetivoCompleto | src/main/java/com/caloria/service/PerfilService.java:75-81 | the marking specification for the objective step |
| UsuarioService.IndexOf | src/main/java/com/caloria/service/UsuarioService.java:201-207 | the position of the first occurrence |
| UsuarioService.AddUnique | src/main/java/com/caloria/service/UsuarioService.java:185-187 | LinkedHashSet.add: the id is appended only when absent, so the set has no duplicates |
| UsuarioService.AddAll | src/main/java/com/caloria/service/UsuarioService.java:185-187 | LinkedHashSet.addAll: each element added in turn when absent; its properties are AddAllOutcome to AddAllConcat |
| UsuarioService.AddAllOutcome | src/main/java/com/caloria/service/UsuarioService.java:185-187 | addAll keeps the set duplicate-free and its members are those of both parts |
| UsuarioService.AddAllMembers | src/main/java/com/caloria/service/UsuarioService.java:185-187 | an id is in the result exactly when it is in the set or in the added list |
| UsuarioService.AddAllConcat | src/main/java/com/caloria/service/UsuarioService.java:185-187 | adding a concatenation is adding one part, then the other |
| UsuarioService.Dedup | src/main/java/com/caloria/service/UsuarioService.java:185 | new LinkedHashSet(list): addAll into an empty set; its properties are DedupOutcome to DedupOfNoDup |
| UsuarioService.DedupOutcome | src/main/java/com/caloria/service/UsuarioService.java:185 | new LinkedHashSet(list) has no duplicates and the same members |
| UsuarioService.DedupOrder | src/main/java/com/caloria/service/UsuarioService.java:185 | members keep the order of their first occurrences |
| UsuarioService.DedupOfNoDup | src/main/java/com/caloria/service/UsuarioService.java:185 | a duplicate-free list is its own de-duplication |
| UsuarioService.RecetasTrasGuardar | src/main/java/com/caloria/service/UsuarioService.java:185-187 | the new list is the old ids de-duplicated, then the new ids not already present, in order, with no duplicates |
| UsuarioService.RemoveFirst | src/main/java/com/caloria/service/UsuarioService.java:201-207 | List.remove(Object) on the recipe ids: the first occurrence cut out; its properties are RemoveFirstSplice to RemoveFirstNoDup |
| UsuarioService.RemoveFirstSplice | src/main/java/com/caloria/service/UsuarioService.java:201-207 | removal cuts out exactly the first occurrence; an absent id leaves the list alone |
| UsuarioService.RemoveFirstMultiset | src/main/java/com/caloria/service/UsuarioService.java:201-207 | removal takes one copy of the id from the multiset |
| UsuarioService.RemoveFirstNoDup | src/main/java/com/caloria/service/UsuarioService.java:201-207 | on a duplicate-free list the id is gone afterwards and the list stays duplicate-free |
| UsuarioService.EscriturasDelPerfil | src/main/java/com/caloria/service/UsuarioService.java:53-163 | each write stores what it is given and sets only its own step flag (crearOActualizar sets none); identity, goals and perfilCompleto are untouched |
| UsuarioService.EscriturasConmutan | src/main/java/com/caloria/service/UsuarioService.java:106-163 | the three step writes commute and are idempotent |
| UsuarioService.CrearOActualizarSpec | src/main/java/com/caloria/service/UsuarioService.java:53-78 | crearOActualizarPerfil on the stored users: the stored user, or a new one with that id, with the ten fields written; its outcomes are CrearOActualizarOutcome |
| UsuarioService.CrearOActualizarOutcome | src/main/java/com/caloria/service/UsuarioService.java:53-78 | an absent user is created with every step pending and no goals; a present one keeps its days, recipes, flags and goals; other users are untouched |
| UsuarioService.EscriturasSobreElAlmacen | src/main/java/com/caloria/service/UsuarioService.java:106-163 | unknown user: NOT_FOUND; otherwise only that user's profile changes, with days, recipes and goals kept |
| UsuarioService.IdsOf | src/main/java/com/caloria/service/UsuarioService.java:186 | when every recipe is stored, the ids are those of the recipes, in order |
| UsuarioService.AddAllStep | src/main/java/com/caloria/service/UsuarioService.java:186 | one more stored recipe adds its id to the set |
| UsuarioService.GuardarRecetasSpec | src/main/java/com/caloria/service/UsuarioService.java:182-192 | guardarRecetasUsuario on both stores: NOT_FOUND, or the recipe loop, the user's list replaced by Dedup(old) plus the new ids, and the listed stored recipes; its outcomes are GuardarRecetasOutcome |
| UsuarioService.GuardarRecetasOutcome | src/main/java/com/caloria/service/UsuarioService.java:182-192 | unknown user: NOT_FOUND; otherwise only the list changes, to Dedup(old + new ids); it is duplicate-free, holds every new id and nothing else new; the returned recipes are exactly the stored ones listed |
| UsuarioService.EliminarSpec | src/main/java/com/caloria/service/UsuarioService.java:201-207 | eliminarRecetaUsuario on the stored users: NOT_FOUND, the first occurrence removed and saved when listed, the store unchanged otherwise |
| UsuarioService.UsuarioService.constructor | src/main/java/com/caloria/service/UsuarioService.java:42-43 | the service wraps the user store and the recipe catalog |
| UsuarioService.UsuarioService.CrearOActualizarPerfil | src/main/java/com/caloria/service/UsuarioService.java:53-78 | the new store is the create-or-update specification; the stored user is returned |
| UsuarioService.UsuarioService.AsignarPerfil | src/main/java/com/caloria/service/UsuarioService.java:64-73 | the ten setters on the loaded user |
| UsuarioService.UsuarioService.AsignarBasicos | src/main/java/com/caloria/service/UsuarioService.java:109-115 | the basics setters and the flag on the loaded user |
| UsuarioService.UsuarioService.AsignarNivel | src/main/java/com/caloria/service/UsuarioService.java:128-129 | the level and the flag on the loaded user |
| UsuarioService.UsuarioService.AsignarPreferencias | src/main/java/com/caloria/service/UsuarioService.java:155-157 | both lists and the flag on the loaded user |
| UsuarioService.UsuarioService.AsignarPersona | src/main/java/com/caloria/service/UsuarioService.java:64-66 | name, age and sex set, and nothing else |
| UsuarioService.UsuarioService.AsignarMedidas | src/main/java/com/caloria/service/UsuarioService.java:67-71 | height, weight and day start set, and nothing else |
| UsuarioService.UsuarioService.AsignarNivelYObjetivo | src/main/java/com/caloria/service/UsuarioService.java:69-70 | level and objective set, and nothing else |
| UsuarioService.UsuarioService.AsignarListas | src/main/java/com/caloria/service/UsuarioService.java:72-73 | preferences and allergies set, and nothing else |
| UsuarioService.UsuarioService.ObtenerPerfil | src/main/java/com/caloria/service/UsuarioService.java:97-100 | NOT_FOUND exactly for an unknown id; otherwise a fresh copy of the stored user |
| UsuarioService.UsuarioService.ActualizarBasicos | src/main/java/com/caloria/service/UsuarioService.java:106-120 | the new store, or NOT_FOUND with the store unchanged, is the basics specification |
| UsuarioService.UsuarioService.ActualizarNivelActividad | src/main/java/com/caloria/service/UsuarioService.java:126-133 | the new store, or NOT_FOUND, is the level specification |
| UsuarioService.UsuarioService.ObtenerNivelActividad | src/main/java/com/caloria/service/UsuarioService.java:138-140 | the stored level, or NOT_FOUND |
| UsuarioService.UsuarioService.ActualizarPreferencias | src/main/java/com/caloria/service/UsuarioService.java:150-163 | the new store, or NOT_FOUND, is the preferences specification |
| UsuarioService.UsuarioService.ObtenerRecetasUsuario | src/main/java/com/caloria/service/UsuarioService.java:169-172 | the stored recipes the user lists, or NOT_FOUND |
| UsuarioService.UsuarioService.GuardarRecetasUsuario | src/main/java/com/caloria/service/UsuarioService.java:182-192 | the new stores and the result are those of the save-recipes specification |
| UsuarioService.UsuarioService.GuardarRecetasDe | src/main/java/com/caloria/service/UsuarioService.java:185-189 | the catalog loop and the set, then the list replaced, on the loaded user |
| UsuarioService.UsuarioService.AgregarRecetas | src/main/java/com/caloria/service/UsuarioService.java:186 | each recipe saved unless its title is stored, its id added to the set |
| UsuarioService.UsuarioService.GuardarRecetasFin | src/main/java/com/caloria/service/UsuarioService.java:187 | only the user's recipe list changes |
| UsuarioService.UsuarioService.EliminarRecetaUsuario | src/main/java/com/caloria/service/UsuarioService.java:201-207 | NOT_FOUND for an unknown user; a listed id loses its first occurrence and is saved; an unlisted one changes nothing |
| IAService.EncontradosSon | src/main/java/com/caloria/service/IAService.java:150-153 | the found list holds only foods with positive grams and a catalog entry |
| IAService.FaltantesSon | src/main/java/com/caloria/service/IAService.java:154-156 | the missing list holds only foods that are not found |
| IAService.ParticionMultiset | src/main/java/com/caloria/service/IAService.java:148-157 | together the two lists are a permutation of the input |
| IAService.EncontradosConcat | src/main/java/com/caloria/service/IAService.java:148-157 | the found list keeps the input order |
| IAService.Buscador | src/main/java/com/caloria/service/IAService.java:150 | obtenerPorNombre on the catalog as it is, for a name no two entries share: the body of its entry, or none |
| IAService.SinAmbiguos | src/main/java/com/caloria/service/IAService.java:150 | no food of the meal has a name two catalog entries share, so no lookup of the partition throws |
| IAService.Encontrados | src/main/java/com/caloria/service/IAService.java:148-157 | the found foods of the partition, in input order; its properties are EncontradosSon, ParticionMultiset and EncontradosConcat |
| IAService.Faltantes | src/main/java/com/caloria/service/IAService.java:148-157 | the missing foods of the partition, in input order; its properties are FaltantesSon, ParticionMultiset and FaltantesConcat |
| IAService.FaltantesConcat | src/main/java/com/caloria/service/IAService.java:148-157 | the missing list keeps the input order |
| IAService.EncontradosEnCatalogo | src/main/java/com/caloria/service/IAService.java:165 | every found food has a catalog entry, so the get() at line 165 succeeds |
| IAService.EncontradosSinAmbiguos | src/main/java/com/caloria/service/IAService.java:150-165 | found foods are foods of the meal, so when no meal name is shared the lookups at line 165 do not throw either |
| IAService.SinAmbiguosPaso | src/main/java/com/caloria/service/IAService.java:150 | one more lookup keeps the partition exception-free exactly when its own name is not shared |
| IAService.SinAmbiguosFalla | src/main/java/com/caloria/service/IAService.java:150 | a food whose name two entries share makes the partition throw |
| IAService.EntradasEncontrados | src/main/java/com/caloria/service/IAService.java:164-187 | one response entry per found food |
| IAService.RegistrosEncontrados | src/main/java/com/caloria/service/IAService.java:164-187 | one registration per found food |
| IAService.EncontradosAt | src/main/java/com/caloria/service/IAService.java:164-184 | the k-th entry and registration are the k-th found food scaled by gramos/100 and rounded |
| IAService.EncontradosPaso | src/main/java/com/caloria/service/IAService.java:164-187 | one more found food appends its entry and its registration |
| IAService.PromptOrden | src/main/java/com/caloria/service/IAService.java:191-197 | the prompt lists the missing foods in order: each prefix's prompt is a prefix of it |
| IAService.PromptEmpieza | src/main/java/com/caloria/service/IAService.java:191 | the prompt starts with "RgstrAlim" |
| IAService.PromptEjemplo | src/main/java/com/caloria/service/IAService.java:191-197 | 150.4 g is written as 150 |
| IAService.Prompt | src/main/java/com/caloria/service/IAService.java:191-197 | "RgstrAlim" followed, per missing food, by its name and its (int) Math.round grams; its properties are PromptOrden to PromptEjemplo |
| IAService.EntradasIA | src/main/java/com/caloria/service/IAService.java:241-265 | one response entry per food of the assistant |
| IAService.RegistrosIA | src/main/java/com/caloria/service/IAService.java:241-265 | one registration per food of the assistant |
| IAService.IAAt | src/main/java/com/caloria/service/IAService.java:242-262 | the j-th entry and registration are those of the assistant's j-th food |
| IAService.IAPaso | src/main/java/com/caloria/service/IAService.java:241-265 | one more food of the assistant appends its entry and registration |
| IAService.ClaveInyectiva | src/main/java/com/caloria/service/IAService.java:171 | distinct idx give distinct keys "alimento_" + idx |
| IAService.ClavesInyectivas | src/main/java/com/caloria/service/IAService.java:171 | the key map is injective |
| IAService.JsonOutcome | src/main/java/com/caloria/service/IAService.java:269 | every numbered entry appears under its own key, and there are no other keys |
| IAService.JsonEn | src/main/java/com/caloria/service/IAService.java:269 | one numbered entry appears in the rendered object |
| IAService.Numerar | src/main/java/com/caloria/service/IAService.java:161-264 | the response as a map from idx to entry, numbered from desde; its properties are NumerarClaves to NumerarAppend |
| IAService.NumerarClaves | src/main/java/com/caloria/service/IAService.java:161-186 | the numbers used are exactly desde … desde + n - 1 |
| IAService.NumerarEn | src/main/java/com/caloria/service/IAService.java:171-252 | the k-th entry is under desde + k |
| IAService.NumerarAppend | src/main/java/com/caloria/service/IAService.java:186-264 | appending an entry puts it under the next number |
| IAService.ProcesarPaso | src/main/java/com/caloria/service/IAService.java:164-187 | the i-th found food goes under idx i + 1 |
| IAService.IntegrarPaso | src/main/java/com/caloria/service/IAService.java:241-265 | the assistant's j-th food goes under the idx after all entries before it |
| IAService.EncontradoEn | src/main/java/com/caloria/service/IAService.java:171 | a found food's entry and registration survive whatever is appended later |
| IAService.AnalisisSpec | src/main/java/com/caloria/service/IAService.java:148-270 | the analysis for a lookup and an assistant: the prompt sent if any, the response or the assistant's error, and the foods to register; its properties are AnalisisPregunta to AnalisisConIA |
| IAService.AnalisisPregunta | src/main/java/com/caloria/service/IAService.java:190-238 | a prompt is sent exactly when some food is missing, and it is the prompt of the missing foods; the result is the assistant's error exactly when the assistant answered with one, and then nothing is registered |
| IAService.AnalisisClaves | src/main/java/com/caloria/service/IAService.java:159-266 | one registration per found food and per assistant food; the response keys are exactly 1 … that count |
| IAService.AnalisisCalorias | src/main/java/com/caloria/service/IAService.java:183-261 | every food to register carries the calories of its own macros |
| IAService.CoherentesConcat | src/main/java/com/caloria/service/IAService.java:183-261 | calorie coherence is kept by concatenation |
| IAService.EncontradosCoherentes | src/main/java/com/caloria/service/IAService.java:183 | the found foods' registrations are coherent |
| IAService.IACoherentes | src/main/java/com/caloria/service/IAService.java:261 | the assistant's registrations are coherent |
| IAService.EncontradoRegistrado | src/main/java/com/caloria/service/IAService.java:164-186 | the k-th found food is found, sits under idx k + 1 with its scaled macros, and is the k-th registration |
| IAService.ItemIARespondido | src/main/java/com/caloria/service/IAService.java:241-253 | the assistant's j-th food is in the response under idx n + j + 1, where n is the number of found foods |
| IAService.RespuestaIAEn | src/main/java/com/caloria/service/IAService.java:248-253 | an assistant's entry sits after the earlier entries |
| IAService.ItemIARegistrado | src/main/java/com/caloria/service/IAService.java:255-262 | the assistant's j-th food is registered after all found foods, under its own key as name, with its grams or 0 |
| IAService.RegistroIAEn | src/main/java/com/caloria/service/IAService.java:255-262 | an assistant's registration sits after the earlier ones |
| IAService.AnalisisConIA | src/main/java/com/caloria/service/IAService.java:159-266 | with misses and foods from the assistant, the response is the found entries followed by the assistant's, numbered from 1, and so are the registrations |
| IAService.PersistirPaso | src/main/java/com/caloria/service/IAService.java:273-277 | one more food extends the loop by one step, unless the loop has already stopped |
| IAService.PasoSpec | src/main/java/com/caloria/service/IAService.java:274-276 | one iteration on both stores: guardarSiNoExiste then registrarAlimento, a failure of either stopping there |
| IAService.PersistirSpec | src/main/java/com/caloria/service/IAService.java:272-279 | the background loop over the foods in order, stopped by the first exception; its properties are PersistirPaso to SinGramosDetiene |
| IAService.PersistirDetenido | src/main/java/com/caloria/service/IAService.java:272-279 | after an exception, later foods change nothing |
| IAService.PersistirCorte | src/main/java/com/caloria/service/IAService.java:272-279 | a run stopped at food i ends with the state at that point |
| IAService.PersistirConserva | src/main/java/com/caloria/service/IAService.java:272-279 | the catalog only grows, stays well formed and keeps unique names; the user ids are kept |
| IAService.SinGramosDetiene | src/main/java/com/caloria/service/IAService.java:246-274 | an assistant's food without grams and with a new name makes from() fail, which stops the loop there |
| IAService.IAService.constructor | src/main/java/com/caloria/service/IAService.java:32-33 | the service wraps the day service and the catalog service |
| IAService.IAService.AnalizarComida | src/main/java/com/caloria/service/IAService.java:144-282 | when a food's name is shared by two catalog entries, IncorrectResultSize with no prompt and the stores unchanged; otherwise the output and the prompt are those of the analysis specification, and the stores end as the persistence loop leaves them |
| IAService.IAService.Particionar | src/main/java/com/caloria/service/IAService.java:148-157 | IncorrectResultSize exactly when some food's name is shared by two entries; otherwise the two lists are those of the partition specification |
| IAService.IAService.ProcesarEncontrados | src/main/java/com/caloria/service/IAService.java:159-187 | the entries are numbered from 1, the registrations are those of the specification, and idx ends one past them |
| IAService.IAService.Escalar | src/main/java/com/caloria/service/IAService.java:164-183 | one found food's entry and registration, from the one catalog entry of its name |
| IAService.IAService.ConstruirPrompt | src/main/java/com/caloria/service/IAService.java:191-197 | the StringBuilder loop builds the prompt of the specification |
| IAService.IAService.IntegrarIA | src/main/java/com/caloria/service/IAService.java:241-266 | the assistant's foods are numbered after the existing entries and appended to the registrations |
| IAService.IAService.LeerItemIA | src/main/java/com/caloria/service/IAService.java:242-262 | one of the assistant's foods, read into its entry and registration |
| IAService.IAService.Persistir | src/main/java/com/caloria/service/IAService.java:272-279 | the stores end as the loop specification leaves them |
| IAService.IAService.PersistirUno | src/main/java/com/caloria/service/IAService.java:274-276 | one food saved in the catalog if absent, then registered; the boolean says whether an exception occurred |

## Left out

- OpenAI plumbing in IAService is not modelled: client set-up, threads, runs, the one-second polling loop, reading messages, and all of generarRecetas. These are network calls with an unbounded wait. The assistant is a function parameter from prompt to reply.
- `CompletableFuture.runAsync` is modelled as the persistence loop running in the caller's thread after the response is built. Concurrent saves for the same user are not modelled.
- JSON parsing and rendering are not modelled. That covers org.json, Jackson's `readTree` in parseYGuardar, and converting DTOs and records.
  - The assistant's reply is a given sequence of items.
  - The response is kept internally as a map from idx to entry. `IAService.Json` and `IAService.SalidaDe` render it keyed `alimento_<idx>`.
  - Key order (JSONObject is hash-ordered) is not modelled. The assistant's items are taken in the order given.
- Java `double` and `BigDecimal.valueOf(double)` are modelled as exact reals. Floating-point error and the shortest-decimal conversion are not modelled.
- `Math.round` is modelled as Floor(v + 1/2). Its saturation at the bounds of `long` is not modelled. The later `(int)` cast is modelled, with its 32-bit wrap.
- The clock (`LocalDate.now`, `LocalTime.now`) is passed in as `hoy` and `ahora`.
  - One call sees one clock value.
  - `DiaService.DiaService.SolicitarConsejo` takes its summary at the same instant.
  - `horaInicioDia` is stored already parsed. A missing one is the NullPointerException path; malformed text is not modelled.
- `LocalDate.now().toString()` in the summary's date is the date value itself, not its ISO text.
- Case folding covers ASCII letters only. Java's full Unicode toUpperCase and toLowerCase, and MongoDB's regex semantics for `IgnoreCase` finders, are not modelled.
- `findAllById` is modelled as the set of stored recipes whose id is listed. Its result order is not modelled.
- Document ids are natural numbers assigned from a counter. MongoDB's generated ObjectId strings are not modelled. User ids are strings given by the caller.
- `UsuarioService.UsuarioService.GuardarRecetasUsuario`: requires the new recipes to carry no id, because the catalog assigns ids. A recipe arriving with an id that is already stored is not modelled.
- `CatalogoRecetasService.CatalogoRecetasService.ParseYGuardar`: requires recipes without ids, as a parsed reply has them.
- `CatalogoRecetasService.CatalogoRecetasService.SaveIfNotExists`: requires that a recipe with an id does not carry an id that is already stored. Overwriting another recipe's document through saveIfNotExists is not modelled.
- `crearUsuarioEsqueleto` (UsuarioService.java:86-92) is not modelled. The store generates the new user's id, which the model does not cover.
- `UsuarioRepository.java` is not part of this model. The users store is modelled from its uses: `findById` returns a copy, and `save` upserts by id.
- The DTO accessors that DiaService and IAService call do not match the fields MacrosDTO declares (`getProteinasG()` against `proteinas`). The model reads the four fields in constructor order: protein, carbohydrate, fat, calories.
- `DiaService.LIMITE_CONSEJOS` is 100, as the code compares. The exception's message speaks of 3 daily pieces of advice; the model keeps 100.
- `IAService.ItemIARespondido` and `IAService.EncontradoRegistrado`: take the response key as a parameter. The lemmas require it to equal n + j + 1 or k + 1.
- The recursion between completarObjetivo, marcarObjetivoCompleto and revisarPerfilCompleto is modelled in one pass. The as-written recursion is kept only to exhibit the defects below. `PerfilService.CompletarObjetivoAsWritten` and `PerfilService.MarcarAsWritten` take a call-depth bound (`pila`) in place of the JVM stack. Running out of it stands for the StackOverflowError.
- Authentication, security, controllers, configuration and bean validation are not modelled.

## Findings

| source | as written | input that shows it | evidently intended | confidence | as-written member | corrected member |
|---|---|---|---|---|---|---|
| src/main/java/com/caloria/service/PerfilService.java:36-40 | completarObjetivo calls marcarObjetivoCompleto(u.getId()). That call reloads the user, sets objetivoCompleto on that copy and saves it. Line 40 then saves the original copy `u`, whose flag is still false, over it. | user "u1" with basics and preferences done, activity not done, objetivoCompleto false, 30 years, 165 cm, 60 kg, "F"; completarObjetivo("u1", "moderada", "mantener") | the saved user has objetivoCompleto = true | not executed | PerfilService.FlagDeObjetivoPerdidoEjemplo | PerfilService.CompletarOutcome |
| src/main/java/com/caloria/service/PerfilService.java:25-94 | In revisarPerfilCompleto, once all four flags are true, it calls completarObjetivo, which calls marcarObjetivoCompleto, which calls revisarPerfilCompleto again. Each call reloads the stored copy, where the flags are still true, so the call never succeeds: a NullPointerException at line 32, one level down, when no objective is stored (the first objective a user sets), and a StackOverflowError when a valid one is. | any user whose basics, activity and preferences steps are stored as done; completarObjetivo on it, or marcarObjetivoCompleto | the review sets perfilCompleto = true and returns | not executed | PerfilService.CicloSinSalida | PerfilService.CompletarCompletaElPerfil |

`PerfilService.FlagDeObjetivoPerdido` states the first defect for every user short of the three other steps. `PerfilService.CicloSinObjetivo` and `PerfilService.CicloDesbordado` separate the two ways the second defect ends. `PerfilService.MarcarSinSalida` gives it for the marking operations. `PerfilService.MarcarCompletaElPerfil` is its corrected counterpart. The services use the corrected one-pass definitions: `PerfilService.CompletarObjetivoSpec` through `PerfilService.PerfilService.CompletarObjetivo`, and `PerfilService.MarcarSpec` through `PerfilService.PerfilService.MarcarPaso`.
