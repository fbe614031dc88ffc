/** NivelActividad: the six activity levels and their PAL (physical activity level) factors. */
module NivelActividad {
  import opened Wrappers
  import Text

  datatype NivelActividad = MUY_BAJA | BAJA | MODERADA | ALTA | MUY_ALTA | EXTREMA

  /** The constants in declaration order (NivelActividad.values()). */
  const NIVELES: seq<NivelActividad> := [MUY_BAJA, BAJA, MODERADA, ALTA, MUY_ALTA, EXTREMA]

  /** getPal(). */
  function Pal(n: NivelActividad): (pal: real)
    ensures pal > 1.0
  {
    match n
    case MUY_BAJA => 1.20
    case BAJA => 1.35
    case MODERADA => 1.55
    case ALTA => 1.725
    case MUY_ALTA => 1.90
    case EXTREMA => 2.20
  }

  /** name(): the constant's identifier. */
  function Name(n: NivelActividad): string {
    match n
    case MUY_BAJA => "MUY_BAJA"
    case BAJA => "BAJA"
    case MODERADA => "MODERADA"
    case ALTA => "ALTA"
    case MUY_ALTA => "MUY_ALTA"
    case EXTREMA => "EXTREMA"
  }

  /** NivelActividad.valueOf(s.toUpperCase()): the constant so named, or IllegalArgumentException. */
  function ValueOfIgnoringCase(s: string): (r: Result<NivelActividad>)
    ensures r.Success? ==> Name(r.value) == Text.Upper(s)
    ensures r.Failure? ==> r.error == UnknownConstant && forall n :: Name(n) != Text.Upper(s)
  {
    var u := Text.Upper(s);
    if u == "MUY_BAJA" then Success(MUY_BAJA)
    else if u == "BAJA" then Success(BAJA)
    else if u == "MODERADA" then Success(MODERADA)
    else if u == "ALTA" then Success(ALTA)
    else if u == "MUY_ALTA" then Success(MUY_ALTA)
    else if u == "EXTREMA" then Success(EXTREMA)
    else Failure(UnknownConstant)
  }

  /** There are exactly six levels, listed without repetition. */
  lemma ExactlySixLevels()
    ensures |NIVELES| == 6
    ensures forall n: NivelActividad :: n in NIVELES
    ensures forall i, j :: 0 <= i < j < |NIVELES| ==> NIVELES[i] != NIVELES[j]
  {
    forall n: NivelActividad ensures n in NIVELES {
      assert n == MUY_BAJA || n == BAJA || n == MODERADA || n == ALTA || n == MUY_ALTA || n == EXTREMA;
    }
  }

  /** The PAL factors, in declaration order. */
  lemma PalTable()
    ensures seq(|NIVELES|, i requires 0 <= i < |NIVELES| => Pal(NIVELES[i])) == [1.20, 1.35, 1.55, 1.725, 1.90, 2.20]
  {
  }

  /** PAL increases strictly in declaration order. */
  lemma PalStrictlyIncreasing()
    ensures forall i, j :: 0 <= i < j < |NIVELES| ==> Pal(NIVELES[i]) < Pal(NIVELES[j])
  {
  }

  /** Every constant is found again from its own name. */
  lemma ValueOfName(n: NivelActividad)
    ensures ValueOfIgnoringCase(Name(n)) == Success(n)
  {
    Text.UpperOfConstantName(Name(n));
  }

  /** ... and from its name in lower case. */
  lemma ValueOfLowerName(n: NivelActividad)
    ensures ValueOfIgnoringCase(Text.Lower(Name(n))) == Success(n)
  {
    ValueOfName(n);
    Text.UpperOfLower(Name(n));
  }
}
