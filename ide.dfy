/** The IDE screening test's reference data (domains, parts, DG quotas), the two age
    thresholds, the four risk tiers, and the value types that carry scores from the
    calculator to the report. */
module Ide {
  import opened Base

  // ---------------------------------------------------------------------------
  // Catalogue: TestIDE::DOMAINES, TestIDE::PARTIES, TestIDE::ITEMS_DG_PAR_PARTIE.
  // Codes and names are kept as parallel sequences in declaration order, which
  // is the iteration order of the PHP arrays.

  const DomainCodes: seq<string> := ["SO", "AU", "MG", "MF", "LEX", "LCO", "LE", "NBRE", "DG"]

  const DomainNames: seq<string> := [
    "Social", "Autonomie", "Moteur Global", "Moteur Fin", "Langage Expressif",
    "Compréhension du Langage", "Apprentissage des Lettres", "Apprentissage des Nombres",
    "Développement Général"]

  /** The synthetic general-development aggregate and its row index in a score grid. */
  const Dg: string := "DG"
  const DgIndex: nat := 8

  const PartCodes: seq<string> := ["AP", "A", "B", "C", "D", "E"]

  const PartNames: seq<string> := [
    "Partie AP (15-18 mois)", "Partie A (18-24 mois)", "Partie B (24-36 mois)",
    "Partie C (36-48 mois)", "Partie D (48-60 mois)", "Partie E (60-72 mois)"]

  /** Number of DG items expected in each part; part AP has none. */
  const DgItemsPerPart: seq<(string, nat)> := [("A", 17), ("B", 12), ("C", 11), ("D", 6), ("E", 23)]

  predicate Distinct(s: seq<string>) {
    forall i, j :: 0 <= i < j < |s| ==> s[i] != s[j]
  }

  lemma CatalogueShape()
    ensures |DomainCodes| == |DomainNames| == 9 && |PartCodes| == |PartNames| == 6
    ensures DomainCodes[DgIndex] == Dg
    ensures Distinct(DomainCodes) && Distinct(DomainNames) && Distinct(PartCodes)
  {
  }

  /** Each catalogue code is found at its own position. */
  lemma DomainCodeIndex(d: nat)
    requires d < |DomainCodes|
    ensures IndexOf(DomainCodes, DomainCodes[d]) == Some(d)
  {
    CatalogueShape();
  }

  /** The catalogue name of a code, or the code itself when the catalogue does not
      know it (ItemIDE::getNomDomaine, getNomPartie; Bilan name lookups). */
  function NameOrCode(codes: seq<string>, names: seq<string>, code: string): (r: string)
    requires |codes| == |names|
    ensures code !in codes ==> r == code
    ensures forall k :: 0 <= k < |codes| && codes[k] == code && code !in codes[..k] ==> r == names[k]
  {
    match IndexOf(codes, code)
    case None => code
    case Some(k) => names[k]
  }

  function NomDomaine(code: string): (r: string)
    ensures code !in DomainCodes ==> r == code
    ensures code in DomainCodes ==> r in DomainNames
  {
    NameOrCode(DomainCodes, DomainNames, code)
  }

  function NomPartie(code: string): (r: string)
    ensures code !in PartCodes ==> r == code
    ensures code in PartCodes ==> r in PartNames
  {
    NameOrCode(PartCodes, PartNames, code)
  }

  /** Distinct catalogue domains have distinct names. */
  lemma NomDomaineInjective(c1: string, c2: string)
    requires c1 in DomainCodes && c2 in DomainCodes && c1 != c2
    ensures NomDomaine(c1) != NomDomaine(c2)
  {
    var k1, k2 := IndexOf(DomainCodes, c1).value, IndexOf(DomainCodes, c2).value;
    assert NomDomaine(c1) == DomainNames[k1] && NomDomaine(c2) == DomainNames[k2];
    CatalogueShape();
  }

  /** TestIDE::getNombreTotalItemsDG: the sum of the per-part DG quotas. */
  function NombreTotalItemsDg(): (n: nat)
    ensures n == 17 + 12 + 11 + 6 + 23
  {
    SumQuotas(DgItemsPerPart)
  }

  function SumQuotas(q: seq<(string, nat)>): nat {
    if q == [] then 0 else q[0].1 + SumQuotas(q[1..])
  }

  /** Every part with a DG quota is a catalogue part, and the first part has none. */
  lemma DgQuotasCoverParts()
    ensures forall k :: 0 <= k < |DgItemsPerPart| ==> DgItemsPerPart[k].0 in PartCodes[1..]
  {
  }

  /** TestIDE::getPartiesOrdonnes: the part codes in age order. */
  function PartiesOrdonnees(): (r: seq<string>)
    ensures |r| == |PartCodes| && Distinct(r)
    ensures forall k :: 0 <= k < |r| ==> IndexOf(PartCodes, r[k]) == Some(k)
  {
    PartCodes
  }

  /** TestIDE::isDomaineValideAge: letters and numbers are assessed only from 48 months. */
  function IsDomaineValideAge(code: string, ageMois: int): (r: bool)
    ensures (code == "LE" || code == "NBRE") && ageMois < 48 ==> !r
    ensures !((code == "LE" || code == "NBRE") && ageMois < 48) ==> (r <==> code in DomainCodes)
  {
    if (code == "LE" || code == "NBRE") && ageMois < 48 then false
    else IndexOf(DomainCodes, code).Some?
  }

  // ---------------------------------------------------------------------------
  // Thresholds (TestIDE::calculerSeuilsRisque) and tiers.

  datatype Seuils = Seuils(hautRisque: int, tresHautRisque: int)

  /** `round(x / 100)` with PHP's rounding of halves away from zero; the percentage
      factors 0.85 and 0.70 are taken as exact decimals. */
  function RoundHundredths(x: int): (r: int)
    ensures x >= 0 ==> -50 < 100 * r - x <= 50
    ensures x < 0 ==> -50 <= 100 * r - x < 50
  {
    if x >= 0 then (x + 50) / 100 else -((-x + 50) / 100)
  }

  /** High risk at or below 85% of the age, very high risk at or below 70%, each
      rounded to the nearest month. */
  function CalculerSeuilsRisque(ageMois: int): (s: Seuils)
    ensures ageMois >= 0 ==> -50 < 100 * s.hautRisque - 85 * ageMois <= 50
    ensures ageMois >= 0 ==> -50 < 100 * s.tresHautRisque - 70 * ageMois <= 50
    ensures ageMois >= 0 ==> 0 <= s.tresHautRisque <= s.hautRisque <= ageMois
  {
    Seuils(RoundHundredths(85 * ageMois), RoundHundredths(70 * ageMois))
  }

  /** The four tiers, from best to worst. */
  datatype Risk = Faible | Modere | Haut | TresHaut

  function Severity(r: Risk): (n: nat)
    ensures n <= 3
    ensures n == 0 <==> r == Faible
    ensures n == 3 <==> r == TresHaut
  {
    match r
    case Faible => 0
    case Modere => 1
    case Haut => 2
    case TresHaut => 3
  }

  /** ScoreCalculatorService::calculerNiveauRisque. `score < 0.95 * age` is read as
      `100 * score < 95 * age`. */
  function CalculerNiveauRisque(score: int, ageMois: int, s: Seuils): (r: Risk)
    ensures r == TresHaut <==> score <= s.tresHautRisque
    ensures r == Haut <==> s.tresHautRisque < score <= s.hautRisque
    ensures r == Modere <==> s.tresHautRisque < score && s.hautRisque < score && 100 * score < 95 * ageMois
    ensures r == Faible <==> s.tresHautRisque < score && s.hautRisque < score && 100 * score >= 95 * ageMois
  {
    if score <= s.tresHautRisque then TresHaut
    else if score <= s.hautRisque then Haut
    else if 100 * score < 95 * ageMois then Modere
    else Faible
  }

  /** At a fixed age a higher score never lands in a worse tier. */
  lemma NiveauRisqueMonotone(low: int, high: int, ageMois: int, s: Seuils)
    requires low <= high
    ensures Severity(CalculerNiveauRisque(high, ageMois, s)) <= Severity(CalculerNiveauRisque(low, ageMois, s))
  {
  }

  /** A score exactly on a threshold takes the worse tier. */
  lemma BoundaryScoresTakeWorseTier(ageMois: int)
    requires ageMois >= 0
    ensures var s := CalculerSeuilsRisque(ageMois);
            CalculerNiveauRisque(s.tresHautRisque, ageMois, s) == TresHaut
            && (s.tresHautRisque < s.hautRisque ==> CalculerNiveauRisque(s.hautRisque, ageMois, s) == Haut)
  {
  }

  /** With the thresholds of a real age, a score of zero is always very high risk
      and a score above the age is always low risk. */
  lemma TierExtremes(ageMois: int, score: int)
    requires ageMois >= 0
    ensures score <= 0 ==> CalculerNiveauRisque(score, ageMois, CalculerSeuilsRisque(ageMois)) == TresHaut
    ensures score > ageMois ==> CalculerNiveauRisque(score, ageMois, CalculerSeuilsRisque(ageMois)) == Faible
  {
  }

  /** ScoreCalculatorService::getNomNiveauRisque and Bilan::NIVEAUX_RISQUE; None
      stands for any other stored level, such as the 'inconnu' placeholder. */
  function NomNiveauRisque(r: Option<Risk>): (s: string)
    ensures r.None? <==> s == "Niveau indéterminé"
  {
    match r
    case Some(Faible) => "Faible risque"
    case Some(Modere) => "Risque modéré"
    case Some(Haut) => "Haut risque (HR)"
    case Some(TresHaut) => "Très haut risque (THR)"
    case None => "Niveau indéterminé"
  }

  /** Each tier has its own display name. */
  lemma NomNiveauRisqueInjective(a: Option<Risk>, b: Option<Risk>)
    requires a != b
    ensures NomNiveauRisque(a) != NomNiveauRisque(b)
  {
  }

  /** BilanService::getCouleurNiveauRisque: green, amber, red, dark red; grey otherwise. */
  function Couleur(r: Option<Risk>): (c: string)
    ensures r.None? <==> c == "#6B7280"
    ensures |c| == 7 && c[0] == '#'
  {
    match r
    case Some(Faible) => "#10B981"
    case Some(Modere) => "#F59E0B"
    case Some(Haut) => "#EF4444"
    case Some(TresHaut) => "#DC2626"
    case None => "#6B7280"
  }

  lemma CouleurInjective(a: Option<Risk>, b: Option<Risk>)
    requires a != b
    ensures Couleur(a) != Couleur(b)
  {
  }

  // ---------------------------------------------------------------------------
  // Values carried from the calculator to the report.

  /** One part's count inside a domain; a row is the PHP array partie => count,
      kept in insertion order. */
  datatype Cell = Cell(partie: string, count: int)
  type Row = seq<Cell>

  /** One domain's entry in the calculator's result. */
  datatype DomainScore = DomainScore(
    domaine: string, score: int, parties: Row,
    seuilHr: int, seuilThr: int, niveau: Risk, ageChronologique: int)

  /** The calculator's result: domain code => score entry, in insertion order. */
  type Scores = seq<DomainScore>

  /** `$scores[$domaine]`: the entry for a domain, if any. */
  function Lookup(scores: Scores, code: string): (r: Option<DomainScore>)
    ensures r.None? <==> forall k :: 0 <= k < |scores| ==> scores[k].domaine != code
    ensures r.Some? ==> r.value in scores && r.value.domaine == code
  {
    if scores == [] then None
    else if scores[0].domaine == code then Some(scores[0])
    else Lookup(scores[1..], code)
  }

  /** A strength or watch-point as the report stores it. */
  datatype Point = Point(domaine: string, description: string)

  /** One bar of the report's graphic profile. */
  datatype ProfileEntry = ProfileEntry(
    domaine: string, nom: string, score: int,
    seuilHr: int, seuilThr: int, niveau: Risk, couleur: string)

  /** `sprintf('%d an%s %d mois', ...)` and `sprintf('%d mois', ...)` shared by the
      age formatters. */
  function YearsMonths(annees: int, mois: int): string {
    IntToString(annees) + " an" + (if annees > 1 then "s" else "") + " " + IntToString(mois) + " mois"
  }

  function Months(mois: int): string {
    IntToString(mois) + " mois"
  }
}
