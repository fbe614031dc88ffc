/** ObjetivoNutricional: the seven nutrition objectives and their factors on the TDEE. */
module ObjetivoNutricional {
  import opened Wrappers
  import Text

  datatype ObjetivoNutricional =
    CUT_LIGERO | CUT_MEDIO | CUT_AGRESIVO | MANTENER | BULK_CONSERVADOR | BULK_ESTANDAR | BULK_AGRESIVO

  /** The constants in declaration order (ObjetivoNutricional.values()). */
  const OBJETIVOS: seq<ObjetivoNutricional> :=
    [CUT_LIGERO, CUT_MEDIO, CUT_AGRESIVO, MANTENER, BULK_CONSERVADOR, BULK_ESTANDAR, BULK_AGRESIVO]

  predicate IsCut(o: ObjetivoNutricional) { o == CUT_LIGERO || o == CUT_MEDIO || o == CUT_AGRESIVO }
  predicate IsBulk(o: ObjetivoNutricional) { o == BULK_CONSERVADOR || o == BULK_ESTANDAR || o == BULK_AGRESIVO }

  /** getFactor(): below 1 for every cut, 1 for maintenance, above 1 for every bulk. */
  function Factor(o: ObjetivoNutricional): (f: real)
    ensures IsCut(o) ==> f < 1.0
    ensures IsBulk(o) ==> f > 1.0
    ensures o == MANTENER ==> f == 1.0
    ensures f > 0.0
  {
    match o
    case CUT_LIGERO => 0.90
    case CUT_MEDIO => 0.80
    case CUT_AGRESIVO => 0.75
    case MANTENER => 1.00
    case BULK_CONSERVADOR => 1.05
    case BULK_ESTANDAR => 1.10
    case BULK_AGRESIVO => 1.15
  }

  /** name(): the constant's identifier. */
  function Name(o: ObjetivoNutricional): string {
    match o
    case CUT_LIGERO => "CUT_LIGERO"
    case CUT_MEDIO => "CUT_MEDIO"
    case CUT_AGRESIVO => "CUT_AGRESIVO"
    case MANTENER => "MANTENER"
    case BULK_CONSERVADOR => "BULK_CONSERVADOR"
    case BULK_ESTANDAR => "BULK_ESTANDAR"
    case BULK_AGRESIVO => "BULK_AGRESIVO"
  }

  /** ObjetivoNutricional.valueOf(s.toUpperCase()): the constant so named, or IllegalArgumentException. */
  function ValueOfIgnoringCase(s: string): (r: Result<ObjetivoNutricional>)
    ensures r.Success? ==> Name(r.value) == Text.Upper(s)
    ensures r.Failure? ==> r.error == UnknownConstant && forall o :: Name(o) != Text.Upper(s)
  {
    var u := Text.Upper(s);
    if u == "CUT_LIGERO" then Success(CUT_LIGERO)
    else if u == "CUT_MEDIO" then Success(CUT_MEDIO)
    else if u == "CUT_AGRESIVO" then Success(CUT_AGRESIVO)
    else if u == "MANTENER" then Success(MANTENER)
    else if u == "BULK_CONSERVADOR" then Success(BULK_CONSERVADOR)
    else if u == "BULK_ESTANDAR" then Success(BULK_ESTANDAR)
    else if u == "BULK_AGRESIVO" then Success(BULK_AGRESIVO)
    else Failure(UnknownConstant)
  }

  /** There are exactly seven objectives, listed without repetition. */
  lemma ExactlySevenObjectives()
    ensures |OBJETIVOS| == 7
    ensures forall o: ObjetivoNutricional :: o in OBJETIVOS
    ensures forall i, j :: 0 <= i < j < |OBJETIVOS| ==> OBJETIVOS[i] != OBJETIVOS[j]
  {
    forall o: ObjetivoNutricional ensures o in OBJETIVOS {
      assert o == CUT_LIGERO || o == CUT_MEDIO || o == CUT_AGRESIVO || o == MANTENER || o == BULK_CONSERVADOR || o == BULK_ESTANDAR || o == BULK_AGRESIVO;
    }
  }

  /** The factors, in declaration order. */
  lemma FactorTable()
    ensures seq(|OBJETIVOS|, i requires 0 <= i < |OBJETIVOS| => Factor(OBJETIVOS[i])) == [0.90, 0.80, 0.75, 1.00, 1.05, 1.10, 1.15]
  {
  }

  /** Cuts deepen from LIGERO to MEDIO to AGRESIVO; bulks grow from CONSERVADOR to ESTANDAR to AGRESIVO. */
  lemma FactorOrdering()
    ensures Factor(CUT_LIGERO) > Factor(CUT_MEDIO) > Factor(CUT_AGRESIVO)
    ensures Factor(BULK_CONSERVADOR) < Factor(BULK_ESTANDAR) < Factor(BULK_AGRESIVO)
  {
  }

  /** Every constant is found again from its own name. */
  lemma ValueOfName(o: ObjetivoNutricional)
    ensures ValueOfIgnoringCase(Name(o)) == Success(o)
  {
    Text.UpperOfConstantName(Name(o));
  }

  /** ... and from its name in lower case. */
  lemma ValueOfLowerName(o: ObjetivoNutricional)
    ensures ValueOfIgnoringCase(Text.Lower(Name(o))) == Success(o)
  {
    ValueOfName(o);
    Text.UpperOfLower(Name(o));
  }
}
