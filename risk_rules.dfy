/**
 * The pure rules of the risk-matrix wizard's form (frontend/src/RiskMatrixApp.js):
 * the static force / unit-type table, the form-state updaters, the mapping from
 * (force, unit type) to a works-category key, the risk-level bands and the
 * validity test that enables submission.
 */
module RiskRules {
  import opened Options

  // ---------------------------------------------------------------------------
  // Static tables

  const Cbmpr := "Corpo de Bombeiros (CBMPR)"
  const Cientifica := "Polícia Científica"
  const Civil := "Polícia Civil"
  const Pmpr := "Polícia Militar (PMPR)"
  const Penal := "Polícia Penal"

  const CadeiaPublica := "Cadeia Pública"
  const Penitenciaria := "Penitenciária Estadual"
  const PostoAvancado := "Posto Avançado"
  const Uetc := "UETC (Unidade Especializada Técnico-Científica)"

  /** `forcas`: the options of the force select, in order. */
  const Forcas: seq<string> := [Cbmpr, Cientifica, Civil, Pmpr, Penal]

  /** The unit types shared by the fire brigade and the military police. */
  const Quarteis: seq<string> :=
    ["Pelotão", "Companhia", "Companhia Independente", "Batalhão", "Comando Regional"]

  /** `tiposUnidade`: the unit-type options offered for each force. */
  const TiposUnidade: map<string, seq<string>> := map[
    Cbmpr := Quarteis,
    Pmpr := Quarteis,
    Civil := ["Delegacia Cidadã Tipo IA", "Delegacia Cidadã Tipo II", "Delegacia Cidadã Tipo III"],
    Penal := [CadeiaPublica, Penitenciaria],
    Cientifica := [PostoAvancado, Uetc]
  ]

  /** Every force offered has a unit-type list, and no other force has one. */
  lemma TablesAgree()
    ensures forall f :: f in Forcas <==> f in TiposUnidade
  {
  }

  // ---------------------------------------------------------------------------
  // Form state

  /** `projectData` */
  datatype ProjectData = ProjectData(
    forca: string,
    tipoUnidade: string,
    tipoIntervencao: string,
    valor: string,
    prazo: string,
    complexidade: int,
    caracteristicas: seq<string>)

  /** The form's initial state, also restored by "Novo Projeto". */
  const InitialProjectData := ProjectData("", "", "", "", "", 3, [])

  /** The text fields that `handleInputChange` is called with. */
  datatype TextField = Forca | TipoUnidade | TipoIntervencao | Valor | Prazo

  function Field(p: ProjectData, f: TextField): string {
    match f
    case Forca => p.forca
    case TipoUnidade => p.tipoUnidade
    case TipoIntervencao => p.tipoIntervencao
    case Valor => p.valor
    case Prazo => p.prazo
  }

  /** The arguments of one `handleInputChange(field, value)` call. */
  datatype InputChange = SetText(field: TextField, value: string) | SetComplexidade(level: int)

  /**
   * The updater of `handleInputChange`: the field takes the value, and a change of
   * force also clears the unit type.
   */
  function ApplyInputChange(p: ProjectData, change: InputChange): (r: ProjectData)
    ensures change.SetText? && change.field == Forca ==>
              r.forca == change.value && r.tipoUnidade == ""
    ensures change.SetText? && change.field != Forca ==>
              Field(r, change.field) == change.value
    ensures change.SetText? ==>
              forall g :: g != change.field && g != TipoUnidade ==> Field(r, g) == Field(p, g)
    ensures change.SetText? && change.field != Forca && change.field != TipoUnidade ==>
              r.tipoUnidade == p.tipoUnidade
    ensures change.SetText? ==>
              r.complexidade == p.complexidade && r.caracteristicas == p.caracteristicas
    ensures change.SetComplexidade? ==> r == p.(complexidade := change.level)
  {
    match change
    case SetComplexidade(level) => p.(complexidade := level)
    case SetText(f, v) =>
      match f
      case Forca => p.(forca := v, tipoUnidade := "")
      case TipoUnidade => p.(tipoUnidade := v)
      case TipoIntervencao => p.(tipoIntervencao := v)
      case Valor => p.(valor := v)
      case Prazo => p.(prazo := v)
  }

  /** `list.filter(c => c !== item)`: every occurrence of `item` removed, the rest in order. */
  function Without(list: seq<string>, item: string): (r: seq<string>)
    ensures item !in r
    ensures forall c :: c != item ==> multiset(r)[c] == multiset(list)[c]
    decreases |list|
  {
    if list == [] then []
    else
      assert list == [list[0]] + list[1..];
      (if list[0] == item then [] else [list[0]]) + Without(list[1..], item)
  }

  /** Filtering distributes over concatenation, so the kept items stay in their order. */
  lemma {:induction false} WithoutAppend(s: seq<string>, t: seq<string>, item: string)
    ensures Without(s + t, item) == Without(s, item) + Without(t, item)
    decreases |s|
  {
    if s == [] {
      assert s + t == t;
    } else {
      assert (s + t)[0] == s[0] && (s + t)[1..] == s[1..] + t;
      WithoutAppend(s[1..], t, item);
    }
  }

  /** Removing an item that is not there changes nothing. */
  lemma {:induction false} WithoutAbsent(list: seq<string>, item: string)
    requires item !in list
    ensures Without(list, item) == list
    decreases |list|
  {
    if list != [] {
      WithoutAbsent(list[1..], item);
      assert list == [list[0]] + list[1..];
    }
  }

  /** The updater of `handleCaracteristicaToggle`. */
  function ToggleCaracteristica(list: seq<string>, item: string): (r: seq<string>)
    ensures item in r <==> item !in list
    ensures item !in list ==> r == list + [item]
    ensures forall c :: c != item ==> multiset(r)[c] == multiset(list)[c]
  {
    if item in list then Without(list, item) else list + [item]
  }

  /** Toggling an unchecked characteristic twice restores the list. */
  lemma ToggleTwice(list: seq<string>, item: string)
    requires item !in list
    ensures ToggleCaracteristica(ToggleCaracteristica(list, item), item) == list
  {
    WithoutAppend(list, [item], item);
    WithoutAbsent(list, item);
  }

  /** Toggling a checked characteristic drops all its occurrences and keeps the others in order. */
  lemma ToggleChecked(list: seq<string>, item: string, before: seq<string>, after: seq<string>)
    requires list == before + [item] + after
    ensures ToggleCaracteristica(list, item) == Without(before, item) + Without(after, item)
  {
    WithoutAppend(before + [item], after, item);
    WithoutAppend(before, [item], item);
  }

  // ---------------------------------------------------------------------------
  // Category key

  const Presidios := "presidios"
  const Delegacias := "delegacias"
  const QuarteisKey := "quarteis"
  const CentraisOperacionais := "centrais_operacionais"

  predicate StartsWith(s: string, prefix: string) {
    |prefix| <= |s| && s[..|prefix|] == prefix
  }

  /** `getTipoObraChave`: the works-category key for a force and unit type, or null. */
  function TipoObraChave(forca: string, tipoUnidade: string): (r: Option<string>)
    ensures r == Some(Presidios) <==> forca == Penal && tipoUnidade in [CadeiaPublica, Penitenciaria]
    ensures r == Some(Delegacias) <==> forca == Civil && StartsWith(tipoUnidade, "Delegacia")
    ensures r == Some(QuarteisKey) <==> forca in [Cbmpr, Pmpr] && tipoUnidade in Quarteis
    ensures r == Some(CentraisOperacionais) <==> forca == Cientifica && tipoUnidade == Uetc
    ensures r.Some? ==> r.value in [Presidios, Delegacias, QuarteisKey, CentraisOperacionais]
  {
    if forca == Penal && (tipoUnidade == CadeiaPublica || tipoUnidade == Penitenciaria) then
      Some(Presidios)
    else if forca == Civil && StartsWith(tipoUnidade, "Delegacia") then
      Some(Delegacias)
    else if (forca == Cbmpr || forca == Pmpr) && tipoUnidade in Quarteis then
      Some(QuarteisKey)
    else if forca == Cientifica && tipoUnidade == Uetc then
      Some(CentraisOperacionais)
    else
      None
  }

  /**
   * Over the static table, every pair of a force and one of its unit types has a
   * key, except the forensic police's advanced post.
   */
  lemma TableCoverage(forca: string, tipoUnidade: string)
    requires forca in TiposUnidade && tipoUnidade in TiposUnidade[forca]
    ensures TipoObraChave(forca, tipoUnidade).None? <==>
              forca == Cientifica && tipoUnidade == PostoAvancado
  {
    var units := TiposUnidade[forca];
    if forca == Civil {
      assert StartsWith(units[0], "Delegacia");
      assert StartsWith(units[1], "Delegacia");
      assert StartsWith(units[2], "Delegacia");
    }
  }

  // ---------------------------------------------------------------------------
  // Risk levels

  /** The level bands of `getRiskLevelText`, lowest first. */
  datatype Band = Desconhecido | Baixo | Moderado | Alto | Extremo {
    function Rank(): nat {
      match this
      case Desconhecido => 0
      case Baixo => 1
      case Moderado => 2
      case Alto => 3
      case Extremo => 4
    }

    function Label(): string {
      match this
      case Desconhecido => "Desconhecido"
      case Baixo => "Baixo"
      case Moderado => "Moderado"
      case Alto => "Alto"
      case Extremo => "Extremo"
    }
  }

  /** The classes of `getRiskColor`, by their colour. */
  datatype Colour = Red | Orange | Yellow | Blue

  /** The band of a numeric risk level (thresholds 15, 8, 3 and 1). */
  function BandOf(nivel: int): (b: Band)
    ensures b == Extremo <==> 15 <= nivel
    ensures b == Alto <==> 8 <= nivel < 15
    ensures b == Moderado <==> 3 <= nivel < 8
    ensures b == Baixo <==> 1 <= nivel < 3
    ensures b == Desconhecido <==> nivel < 1
  {
    if nivel >= 15 then Extremo
    else if nivel >= 8 then Alto
    else if nivel >= 3 then Moderado
    else if nivel >= 1 then Baixo
    else Desconhecido
  }

  /** Higher levels never fall in a lower band. */
  lemma BandMonotone(n: int, m: int)
    requires n <= m
    ensures BandOf(n).Rank() <= BandOf(m).Rank()
  {
  }

  function ColourOf(b: Band): Colour {
    match b
    case Extremo => Red
    case Alto => Orange
    case Moderado => Yellow
    case Baixo => Blue
    case Desconhecido => Blue
  }

  /** `getRiskColor`: its own thresholds give the colour of the level's band. */
  function RiskColor(nivel: int): (c: Colour)
    ensures c == ColourOf(BandOf(nivel))
  {
    if nivel >= 15 then Red
    else if nivel >= 8 then Orange
    else if nivel >= 3 then Yellow
    else Blue
  }

  /** The decimal text of a natural number. */
  function NatText(n: nat): (r: string)
    ensures |r| > 0 && forall i :: 0 <= i < |r| ==> '0' <= r[i] <= '9'
    decreases n
  {
    var d := ['0', '1', '2', '3', '4', '5', '6', '7', '8', '9'][n % 10];
    if n < 10 then [d] else NatText(n / 10) + [d]
  }

  /** The text of an integer in a template literal. */
  function IntText(n: int): string {
    if n < 0 then "-" + NatText(-n) else NatText(n)
  }

  /**
   * `getRiskLevelText`: a classification string is shown as given, otherwise the
   * band's name; either way followed by the number in parentheses.
   */
  function RiskLevelText(classificacao: Option<string>, nivel: int): (r: string)
    ensures classificacao.Some? ==> r == classificacao.value + " (" + IntText(nivel) + ")"
    ensures classificacao.None? ==> r == BandOf(nivel).Label() + " (" + IntText(nivel) + ")"
  {
    var name :=
      if classificacao.Some? then classificacao.value
      else if nivel >= 15 then "Extremo"
      else if nivel >= 8 then "Alto"
      else if nivel >= 3 then "Moderado"
      else if nivel >= 1 then "Baixo"
      else "Desconhecido";
    name + " (" + IntText(nivel) + ")"
  }

  /**
   * The legend shown beside the list: for a probability and an impact on the
   * 1 to 5 scales, the level's band is Extremo for 15-25, Alto for 8-12,
   * Moderado for 3-6 and Baixo for 1-2 (the products 7, 13 and 14 cannot occur).
   */
  lemma LegendAgrees(probabilidade: int, impacto: int)
    requires 1 <= probabilidade <= 5 && 1 <= impacto <= 5
    ensures var n := probabilidade * impacto;
      && n != 7 && n != 13 && n != 14
      && (BandOf(n) == Extremo <==> 15 <= n <= 25)
      && (BandOf(n) == Alto <==> 8 <= n <= 12)
      && (BandOf(n) == Moderado <==> 3 <= n <= 6)
      && (BandOf(n) == Baixo <==> 1 <= n <= 2)
  {
    var p, i := probabilidade, impacto;
    assert p == 1 || p == 2 || p == 3 || p == 4 || p == 5;
    assert i == 1 || i == 2 || i == 3 || i == 4 || i == 5;
  }

  // ---------------------------------------------------------------------------
  // Validity

  /** `isFormValid`: the five required fields are filled in. */
  function IsFormValid(p: ProjectData): (ok: bool)
    ensures ok <==> forall f :: Field(p, f) != ""
  {
    assert Field(p, Forca) == p.forca && Field(p, TipoUnidade) == p.tipoUnidade;
    assert Field(p, TipoIntervencao) == p.tipoIntervencao;
    assert Field(p, Valor) == p.valor && Field(p, Prazo) == p.prazo;
    p.forca != "" && p.tipoUnidade != "" && p.tipoIntervencao != "" && p.valor != "" && p.prazo != ""
  }

  /** Complexity and special characteristics never decide validity. */
  lemma ValidityIgnoresOptionalFields(p: ProjectData, complexidade: int, caracteristicas: seq<string>)
    ensures IsFormValid(p.(complexidade := complexidade, caracteristicas := caracteristicas)) ==
            IsFormValid(p)
  {
  }

  /** Choosing a force always leaves the form invalid until a unit type is chosen again. */
  lemma ForceChangeInvalidates(p: ProjectData, forca: string)
    ensures !IsFormValid(ApplyInputChange(p, SetText(Forca, forca)))
  {
  }

  /** The unit type is empty or one of the options offered for the force. */
  predicate UnitConsistent(p: ProjectData) {
    p.tipoUnidade == "" || (p.forca in TiposUnidade && p.tipoUnidade in TiposUnidade[p.forca])
  }

  /**
   * What the selects can send keeps the unit type consistent with the force:
   * the unit-type select only offers the force's unit types.
   */
  lemma InputKeepsUnitConsistent(p: ProjectData, change: InputChange)
    requires UnitConsistent(p)
    requires change.SetText? && change.field == TipoUnidade ==>
               change.value == "" ||
               (p.forca in TiposUnidade && change.value in TiposUnidade[p.forca])
    ensures UnitConsistent(ApplyInputChange(p, change))
  {
  }

  /** A valid form whose unit type was offered for its force has a category key, but for one pair. */
  lemma ValidFormHasKey(p: ProjectData)
    requires IsFormValid(p) && UnitConsistent(p)
    ensures TipoObraChave(p.forca, p.tipoUnidade).Some? <==>
              !(p.forca == Cientifica && p.tipoUnidade == PostoAvancado)
  {
    TableCoverage(p.forca, p.tipoUnidade);
  }
}
