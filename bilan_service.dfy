/** BilanService: builds a versioned report (bilan) from a finished passation, runs
    the practitioner's review of it, and compares two reports of the same patient.
    The service keeps no state of its own. The prescription's `bilans` stand for
    what the repository returns for it. */
module BilanService {
  import opened Base
  import opened Ide
  import opened Entities
  import opened ScoreCalculator

  // ---------------------------------------------------------------------------
  // Versions: findLastByPrescription picks the highest version.

  function Versions(bilans: seq<Bilan>): (vs: seq<int>)
    reads bilans
    ensures |vs| == |bilans|
    ensures forall k :: 0 <= k < |vs| ==> vs[k] == bilans[k].version
  {
    seq(|bilans|, k requires 0 <= k < |bilans| reads bilans => bilans[k].version)
  }

  /** The highest version, or None when there is no report yet. */
  function DerniereVersion(vs: seq<int>): (r: Option<int>)
    ensures r.None? <==> vs == []
    ensures r.Some? ==> r.value in vs && forall k :: 0 <= k < |vs| ==> vs[k] <= r.value
    decreases |vs|
  {
    if vs == [] then None
    else match DerniereVersion(vs[1..])
      case None => Some(vs[0])
      case Some(v) => if vs[0] >= v then Some(vs[0]) else Some(v)
  }

  /** The version of the next report: one more than the latest, or 1. */
  function ProchaineVersion(vs: seq<int>): (v: int)
    ensures vs == [] ==> v == 1
    ensures vs != [] ==> v - 1 in vs
    ensures forall k :: 0 <= k < |vs| ==> vs[k] < v
  {
    match DerniereVersion(vs)
    case None => 1
    case Some(last) => last + 1
  }

  predicate VersionsDistinctes(vs: seq<int>) {
    forall i, j :: 0 <= i < j < |vs| ==> vs[i] != vs[j]
  }

  /** Generating a report keeps the versions of a prescription's reports distinct,
      and the new one becomes the latest. */
  lemma NouvelleVersionDistincte(vs: seq<int>)
    requires VersionsDistinctes(vs)
    ensures VersionsDistinctes([ProchaineVersion(vs)] + vs)
    ensures DerniereVersion([ProchaineVersion(vs)] + vs) == Some(ProchaineVersion(vs))
  {
    var v := ProchaineVersion(vs);
    var ws := [v] + vs;
    assert forall k :: 1 <= k < |ws| ==> ws[k] == vs[k - 1];
    var last := DerniereVersion(ws).value;
    assert last in ws;
    assert ws[0] == v;
  }

  // ---------------------------------------------------------------------------
  // Pure helpers of the report.

  /** determinerNiveauRisqueGlobal: the tier of DG, or moderate when DG is absent. */
  function NiveauRisqueGlobal(scores: Scores): (r: Risk)
    ensures Lookup(scores, Dg).None? ==> r == Modere
    ensures Lookup(scores, Dg).Some? ==> r == Lookup(scores, Dg).value.niveau
  {
    match DgNiveau(scores)
    case None => Modere
    case Some(niveau) => niveau
  }

  /** estimerAgeDeveloppement: the DG score, but never more than six months ahead
      of the child's age. */
  function EstimerAgeDeveloppement(scoreDg: int, ageMois: int): (r: int)
    ensures r <= scoreDg && r <= ageMois + 6
    ensures r == scoreDg || r == ageMois + 6
  {
    if scoreDg <= ageMois + 6 then scoreDg else ageMois + 6
  }

  /** On a calculator result, the headline score and the global tier are those of
      the DG row, so the moderate default never applies there. */
  lemma HeadlineIsDg(items: seq<ItemIDE>, reponses: map<string, string>, ageMois: int)
    ensures var r := ScoresIde(items, reponses, ageMois);
            DgScore(r) == r[DgIndex].score && NiveauRisqueGlobal(r) == r[DgIndex].niveau
  {
    var r := ScoresIde(items, reponses, ageMois);
    ScoresShape(items, reponses, ageMois);
    CatalogueShape();
    LookupFirst(r, DgIndex);
  }

  function PointFort(e: DomainScore): Point {
    Point(e.domaine, "Développement adapté à l'âge en " + NomDomaine(e.domaine))
  }

  function PointVigilance(e: DomainScore): Point {
    Point(e.domaine,
          (if e.niveau == TresHaut then "Très haut risque identifié en " else "Haut risque identifié en ")
          + NomDomaine(e.domaine))
  }

  /** The strengths of a report: one per non-DG domain at low risk, in score order. */
  function PointsFortsDe(scores: Scores): (r: seq<Point>)
    ensures |r| == Count(scores, IsStrength)
  {
    FilterMap(scores, IsStrength, PointFort)
  }

  /** The watch-points of a report: one per non-DG domain at high or very high risk. */
  function PointsVigilanceDe(scores: Scores): (r: seq<Point>)
    ensures |r| == Count(scores, IsWatch)
  {
    FilterMap(scores, IsWatch, PointVigilance)
  }

  /** The strengths are exactly the points of the non-DG domains at low risk, and
      the watch-points exactly those of the non-DG domains at high or very high risk. */
  lemma PointsExacts(scores: Scores)
    ensures forall j :: 0 <= j < |scores| && IsStrength(scores[j]) ==> PointFort(scores[j]) in PointsFortsDe(scores)
    ensures forall p :: p in PointsFortsDe(scores) ==> exists j :: 0 <= j < |scores| && IsStrength(scores[j]) && p == PointFort(scores[j])
    ensures forall j :: 0 <= j < |scores| && IsWatch(scores[j]) ==> PointVigilance(scores[j]) in PointsVigilanceDe(scores)
    ensures forall p :: p in PointsVigilanceDe(scores) ==> exists j :: 0 <= j < |scores| && IsWatch(scores[j]) && p == PointVigilance(scores[j])
  {
    FilterMapExact(scores, IsStrength, PointFort);
    FilterMapExact(scores, IsWatch, PointVigilance);
  }

  predicate HorsDg(e: DomainScore) { e.domaine != Dg }
  predicate ModereHorsDg(e: DomainScore) { e.domaine != Dg && e.niveau == Modere }

  /** Every non-DG domain is exactly one of: a strength, a watch-point, or a
      moderate domain, which appears in neither list. */
  lemma {:induction false} PointsPartition(scores: Scores)
    ensures Count(scores, IsStrength) + Count(scores, IsWatch) + Count(scores, ModereHorsDg) == Count(scores, HorsDg)
    decreases |scores|
  {
    if scores != [] {
      PointsPartition(scores[..|scores| - 1]);
    }
  }

  /** A point of the report and a line of the interpretation that both come from
      the same non-DG domain score at low risk. */
  predicate MemeForce(scores: Scores, p: Point, t: string) {
    exists j :: 0 <= j < |scores| && IsStrength(scores[j]) && p == PointFort(scores[j]) && t == StrengthText(scores[j])
  }

  /** A point of the report and a line of the interpretation that both come from
      the same non-DG domain score at high or very high risk. */
  predicate MemeVigilance(scores: Scores, p: Point, t: string) {
    exists j :: 0 <= j < |scores| && IsWatch(scores[j]) && p == PointVigilance(scores[j]) && t == WatchText(scores[j])
  }

  /** The report lists the strengths and watch-points of the interpretation, one
      for one and in the same order: the k-th point and the k-th line come from
      the same domain score. */
  lemma PointsAgreeWithInterpretation(scores: Scores)
    ensures |PointsFortsDe(scores)| == |PointsForts(scores)|
    ensures forall k :: 0 <= k < |PointsFortsDe(scores)| ==> MemeForce(scores, PointsFortsDe(scores)[k], PointsForts(scores)[k])
    ensures |PointsVigilanceDe(scores)| == |PointsVigilance(scores)|
    ensures forall k :: 0 <= k < |PointsVigilanceDe(scores)| ==>
              MemeVigilance(scores, PointsVigilanceDe(scores)[k], PointsVigilance(scores)[k])
  {
    hide PointFort, PointVigilance, StrengthText, WatchText;
    assert |PointsFortsDe(scores)| == Count(scores, IsStrength) == |PointsForts(scores)|;
    assert |PointsVigilanceDe(scores)| == Count(scores, IsWatch) == |PointsVigilance(scores)|;
    var forts, textes := FilterMap(scores, IsStrength, PointFort), FilterMap(scores, IsStrength, StrengthText);
    FilterMapPaired(scores, IsStrength, PointFort, StrengthText);
    forall k | 0 <= k < |PointsFortsDe(scores)|
      ensures MemeForce(scores, PointsFortsDe(scores)[k], PointsForts(scores)[k])
    {
      var j :| 0 <= j < |scores| && IsStrength(scores[j]) && forts[k] == PointFort(scores[j]) && textes[k] == StrengthText(scores[j]);
    }
    var vigilance, alertes := FilterMap(scores, IsWatch, PointVigilance), FilterMap(scores, IsWatch, WatchText);
    FilterMapPaired(scores, IsWatch, PointVigilance, WatchText);
    forall k | 0 <= k < |PointsVigilanceDe(scores)|
      ensures MemeVigilance(scores, PointsVigilanceDe(scores)[k], PointsVigilance(scores)[k])
    {
      var j :| 0 <= j < |scores| && IsWatch(scores[j]) && vigilance[k] == PointVigilance(scores[j]) && alertes[k] == WatchText(scores[j]);
    }
  }

  /** One bar of the profile: the domain, its name, score, thresholds, tier and the
      tier's colour. */
  function EntreeProfil(e: DomainScore): ProfileEntry {
    ProfileEntry(e.domaine, NomDomaine(e.domaine), e.score, e.seuilHr, e.seuilThr, e.niveau, Couleur(Some(e.niveau)))
  }

  /** The profile: one bar per non-DG domain, in score order. */
  function ProfilDe(scores: Scores): (r: seq<ProfileEntry>)
    ensures |r| == Count(scores, HorsDg)
  {
    FilterMap(scores, HorsDg, EntreeProfil)
  }

  /** Every bar belongs to a non-DG domain of the scores and is coloured by its tier,
      so none is grey. */
  lemma ProfilColore(scores: Scores)
    ensures forall b :: b in ProfilDe(scores) ==>
              b.domaine != Dg && b.couleur == Couleur(Some(b.niveau)) && b.couleur != Couleur(None)
  {
    FilterMapExact(scores, HorsDg, EntreeProfil);
    forall b | b in ProfilDe(scores)
      ensures b.domaine != Dg && b.couleur == Couleur(Some(b.niveau)) && b.couleur != Couleur(None)
    {
      CouleurInjective(Some(b.niveau), None);
    }
  }

  /** For scores keyed like the calculator's result (see ScoresShape), the profile
      has exactly the eight domains other than DG, in catalogue order. */
  lemma ProfilInOrder(r: Scores)
    requires |r| == |DomainCodes|
    requires forall d :: 0 <= d < |r| ==> r[d].domaine == DomainCodes[d]
    ensures |ProfilDe(r)| == DgIndex
    ensures forall k :: 0 <= k < DgIndex ==> ProfilDe(r)[k] == EntreeProfil(r[k])
  {
    hide EntreeProfil, NomDomaine, Couleur;
    var head := r[..DgIndex];
    assert forall j :: 0 <= j < DgIndex ==> DomainCodes[j] != Dg;
    assert forall j :: 0 <= j < |head| ==> head[j] == r[j] && HorsDg(head[j]);
    FilterMapKeepsAll(head, HorsDg, EntreeProfil);
    assert r[..|r| - 1] == head;
    assert !HorsDg(r[DgIndex]);
  }

  /** The interpretation followed, when there are any, by the consistency warnings
      as a bulleted list. */
  function AvecAvertissements(interpretation: string, avertissements: seq<Alerte>): (r: string)
    ensures avertissements == [] ==> r == interpretation
    ensures interpretation <= r
  {
    if avertissements == [] then interpretation
    else
      var textes := seq(|avertissements|, k requires 0 <= k < |avertissements| => Texte(avertissements[k]));
      var suite := "\n\nAVERTISSEMENTS :\n" + Join(Bullets(textes), "\n");
      assert (interpretation + suite)[..|interpretation|] == interpretation;
      interpretation + suite
  }

  // ---------------------------------------------------------------------------
  // The loops of the report builder.

  /** identifierPointsFortsEtVigilance: appends the strengths and watch-points. */
  method IdentifierPointsFortsEtVigilance(bilan: Bilan, scores: Scores)
    modifies bilan`pointsForts, bilan`pointsVigilance
    ensures bilan.pointsForts == old(bilan.pointsForts) + PointsFortsDe(scores)
    ensures bilan.pointsVigilance == old(bilan.pointsVigilance) + PointsVigilanceDe(scores)
  {
    hide PointFort, PointVigilance, NomDomaine;
    for k := 0 to |scores|
      invariant bilan.pointsForts == old(bilan.pointsForts) + PointsFortsDe(scores[..k])
      invariant bilan.pointsVigilance == old(bilan.pointsVigilance) + PointsVigilanceDe(scores[..k])
    {
      FilterMapSnoc(scores, IsStrength, PointFort, k);
      FilterMapSnoc(scores, IsWatch, PointVigilance, k);
      var e := scores[k];
      if e.domaine == Dg {
        continue;
      }
      if e.niveau == Faible {
        var p := PointFort(e);
        bilan.AjouterPointFort(p.domaine, p.description);
      } else if e.niveau == Haut || e.niveau == TresHaut {
        var p := PointVigilance(e);
        bilan.AjouterPointVigilance(p.domaine, p.description);
      }
    }
    assert scores[..|scores|] == scores;
  }

  /** genererProfilGraphique. */
  method GenererProfilGraphique(scores: Scores) returns (profil: seq<ProfileEntry>)
    ensures profil == ProfilDe(scores)
  {
    profil := [];
    for k := 0 to |scores|
      invariant profil == ProfilDe(scores[..k])
    {
      FilterMapSnoc(scores, HorsDg, EntreeProfil, k);
      var e := scores[k];
      if e.domaine == Dg {
        continue;
      }
      profil := profil + [EntreeProfil(e)];
    }
    assert scores[..|scores|] == scores;
  }

  // ---------------------------------------------------------------------------
  // genererBilanAutomatique

  /** What a generated report holds, given its prescription, version, scores, the
      child's age, the consistency warnings and the clock. */
  /** A freshly generated report of `version` for `prescription`, dated `now`. */
  predicate EnTeteGenere(b: Bilan, prescription: Prescription, version: int, now: Instant)
    reads b`prescription, b`statut, b`version, b`dateValidation, b`dateGeneration
  {
    b.prescription == prescription && b.statut == Genere && b.version == version
    && b.dateValidation.None? && b.dateGeneration == now
  }

  /** The stored scores, DG score, global tier and developmental age. */
  predicate ScoresReportes(b: Bilan, scores: Scores, ageMois: int)
    reads b`scoresDetailles, b`scoreDg, b`niveauRisqueGlobal, b`ageDeveloppementMois
  {
    b.scoresDetailles == scores
    && b.scoreDg == Some(DgScore(scores))
    && b.niveauRisqueGlobal == Some(NiveauRisqueGlobal(scores))
    && b.ageDeveloppementMois == Some(EstimerAgeDeveloppement(DgScore(scores), ageMois))
  }

  /** The strengths, watch-points and profile derived from the scores. */
  predicate AnalyseReportee(b: Bilan, scores: Scores)
    reads b`pointsForts, b`pointsVigilance, b`profilGraphique
  {
    b.pointsForts == PointsFortsDe(scores) && b.pointsVigilance == PointsVigilanceDe(scores)
    && b.profilGraphique == ProfilDe(scores)
  }

  /** Everything genererBilanAutomatique sets on a new report. */
  predicate BilanGenere(b: Bilan, prescription: Prescription, version: int, scores: Scores, ageMois: int,
                        interpretation: string, now: Instant)
    reads b
  {
    EnTeteGenere(b, prescription, version, now) && ScoresReportes(b, scores, ageMois)
    && b.interpretation == interpretation && AnalyseReportee(b, scores)
  }

  /** Fills a new report with everything but its strengths and watch-points. */
  method NouveauBilanSansPoints(prescription: Prescription, version: int, scores: Scores, ageMois: int,
                                interpretation: string, profil: seq<ProfileEntry>, now: Instant)
    returns (bilan: Bilan)
    ensures fresh(bilan)
    ensures EnTeteGenere(bilan, prescription, version, now) && ScoresReportes(bilan, scores, ageMois)
    ensures bilan.interpretation == interpretation && bilan.profilGraphique == profil
    ensures bilan.pointsForts == [] && bilan.pointsVigilance == []
  {
    bilan := new Bilan(now);
    bilan.prescription := prescription;
    bilan.version := version;
    bilan.scoresDetailles := scores;
    var scoreDg := DgScore(scores);
    bilan.scoreDg := Some(scoreDg);
    bilan.niveauRisqueGlobal := Some(NiveauRisqueGlobal(scores));
    bilan.ageDeveloppementMois := Some(EstimerAgeDeveloppement(scoreDg, ageMois));
    bilan.interpretation := interpretation;
    bilan.profilGraphique := profil;
  }

  /** Creates and fills the report. The interpretation arrives already written,
      warnings included; the profile does not depend on the report and is computed
      before it, the strengths and watch-points are added to it last. */
  method NouveauBilan(prescription: Prescription, version: int, scores: Scores, ageMois: int,
                      interpretation: string, now: Instant)
    returns (bilan: Bilan)
    ensures fresh(bilan)
    ensures BilanGenere(bilan, prescription, version, scores, ageMois, interpretation, now)
  {
    var profil := GenererProfilGraphique(scores);
    bilan := NouveauBilanSansPoints(prescription, version, scores, ageMois, interpretation, profil, now);
    IdentifierPointsFortsEtVigilance(bilan, scores);
  }

  /** Persisting a report: the repository lists a prescription's reports newest
      first, so the new one comes first. */
  method Enregistrer(prescription: Prescription, bilan: Bilan)
    modifies prescription`bilans
    ensures prescription.bilans == [bilan] + old(prescription.bilans)
  {
    prescription.bilans := [bilan] + prescription.bilans;
  }

  /** The interpretation a report stores: the generator's text, then the warnings. */
  function InterpretationDuBilan(scores: Scores, ageMois: int, avertissements: seq<Alerte>): string {
    AvecAvertissements(Join(InterpretationLines(scores, ageMois), "\n"), avertissements)
  }

  method RedigerInterpretation(scores: Scores, ageMois: int, avertissements: seq<Alerte>) returns (texte: string)
    ensures texte == InterpretationDuBilan(scores, ageMois, avertissements)
  {
    texte := GenererInterpretation(scores, ageMois);
    if avertissements != [] {
      texte := AvecAvertissements(texte, avertissements);
    }
  }

  /** Writes, fills and persists the report of some scores. */
  method CreerBilan(prescription: Prescription, version: int, scores: Scores, ageMois: int,
                    avertissements: seq<Alerte>, now: Instant)
    returns (bilan: Bilan)
    modifies prescription`bilans
    ensures fresh(bilan)
    ensures BilanGenere(bilan, prescription, version, scores, ageMois,
                        InterpretationDuBilan(scores, ageMois, avertissements), now)
    ensures prescription.bilans == [bilan] + old(prescription.bilans)
  {
    var interpretation := RedigerInterpretation(scores, ageMois, avertissements);
    bilan := NouveauBilan(prescription, version, scores, ageMois, interpretation, now);
    Enregistrer(prescription, bilan);
  }

  /** Builds the report of a finished passation. The scores come from the
      calculator and the interpretation from its generator; consistency errors do
      not stop the generation, and its warnings are appended to the
      interpretation. Persisting the report makes it the prescription's latest. */
  method GenererBilanAutomatique(passation: Passation, now: Instant) returns (r: Result<Bilan>)
    requires passation.prescription != null && passation.prescription.test != null
    requires passation.ageChronologiqueMois.Some?
    modifies passation.prescription`bilans
    ensures !passation.IsTerminee() ==> r == Err(PassationNotFinished)
    ensures passation.IsTerminee() && !passation.prescription.test.isIde ==> r == Err(NotIdeTest)
    ensures passation.IsTerminee() && passation.prescription.test.isIde && |passation.reponses| == 0
            ==> r == Err(NoAnswers)
    ensures r.Ok? <==> passation.IsTerminee() && passation.prescription.test.isIde && |passation.reponses| > 0
    ensures r.Err? ==> passation.prescription.bilans == old(passation.prescription.bilans)
    ensures r.Ok? ==>
              var age := passation.ageChronologiqueMois.value;
              var test := passation.prescription.test;
              passation.IsTerminee() && test.isIde && |passation.reponses| > 0
              && fresh(r.value)
              && BilanGenere(r.value, passation.prescription,
                             old(ProchaineVersion(Versions(passation.prescription.bilans))),
                             ScoresIde(ActiveItems(test), passation.reponses, age), age,
                             InterpretationDuBilan(
                               ScoresIde(ActiveItems(test), passation.reponses, age), age,
                               CoherenceOf(passation.NombreReponsesOui(), passation.NombreReponsesNon(),
                                           Some(|ApplicableItems(test, age)|)).avertissements),
                             now)
              && passation.prescription.bilans == [r.value] + old(passation.prescription.bilans)
  {
    hide *;
    if !passation.IsTerminee() {
      return Err(PassationNotFinished);
    }
    var prescription := passation.prescription;
    var version := ProchaineVersion(Versions(prescription.bilans));
    var calcul := CalculerScoresIde(passation);
    if calcul.Err? {
      return Err(calcul.error);
    }
    var validation := ValiderCoherenceReponses(passation);
    var age := passation.ageChronologiqueMois.value;
    var bilan := CreerBilan(prescription, version, calcul.value, age, validation.avertissements, now);
    return Ok(bilan);
  }

  // ---------------------------------------------------------------------------
  // The review workflow: validerBilan, finaliserBilan, ajouterCommentaires.

  datatype Revue = Valider | Finaliser | Commenter

  /** The status a review step leads to, or None when the status refuses it:
      validating and commenting are refused once finalised, finalising needs a
      validated (or already finalised) report. */
  function Reviser(s: StatutBilan, a: Revue): Option<StatutBilan> {
    match a
    case Valider => if s == Finalise then None else Some(StatutBilan.Valide)
    case Finaliser => if s == StatutBilan.Valide || s == Finalise then Some(Finalise) else None
    case Commenter => if s == Finalise then None else Some(EnRevision)
  }

  /** The status and validation date of a report under review. */
  datatype EtatBilan = EtatBilan(statut: StatutBilan, dateValidation: Option<Instant>)

  function Etape(e: EtatBilan, a: Revue, now: Instant): EtatBilan {
    match Reviser(e.statut, a)
    case None => e
    case Some(s) => EtatBilan(s, ValidationDateAfter(e.dateValidation, s, now))
  }

  /** The state after a series of review requests, each with its own clock. */
  function Parcours(e: EtatBilan, steps: seq<(Revue, Instant)>): EtatBilan
    decreases |steps|
  {
    if steps == [] then e else Parcours(Etape(e, steps[0].0, steps[0].1), steps[1..])
  }

  /** A finalised report stays finalised. */
  lemma {:induction false} FinaliseIsFinal(e: EtatBilan, steps: seq<(Revue, Instant)>)
    requires e.statut == Finalise
    ensures Parcours(e, steps) == e
    decreases |steps|
  {
    if steps != [] {
      FinaliseIsFinal(e, steps[1..]);
    }
  }

  /** Once written, the validation date never changes. */
  lemma {:induction false} ValidationDateKept(e: EtatBilan, steps: seq<(Revue, Instant)>)
    requires e.dateValidation.Some?
    ensures Parcours(e, steps).dateValidation == e.dateValidation
    decreases |steps|
  {
    if steps != [] {
      ValidationDateKept(Etape(e, steps[0].0, steps[0].1), steps[1..]);
    }
  }

  /** A generated report reaches `valide` or `finalise` only with a validation date. */
  lemma {:induction false} ValidatedReportsAreDated(e: EtatBilan, steps: seq<(Revue, Instant)>)
    requires e.statut in {StatutBilan.Valide, Finalise} ==> e.dateValidation.Some?
    ensures var f := Parcours(e, steps); f.statut in {StatutBilan.Valide, Finalise} ==> f.dateValidation.Some?
    decreases |steps|
  {
    if steps != [] {
      ValidatedReportsAreDated(Etape(e, steps[0].0, steps[0].1), steps[1..]);
    }
  }

  /** Validates a report; the ownership check comes first. */
  method ValiderBilan(bilan: Bilan, praticien: User, commentaires: Option<string>, now: Instant)
    returns (o: Outcome)
    requires bilan.prescription != null
    modifies bilan`statut, bilan`dateValidation, bilan`commentairesPraticien
    ensures bilan.prescription.praticien != praticien ==> o == Fail(NotOwner) && unchanged(bilan)
    ensures bilan.prescription.praticien == praticien && Reviser(old(bilan.statut), Valider).None? ==>
              o == Fail(BilanLocked) && unchanged(bilan)
    ensures bilan.prescription.praticien == praticien && Reviser(old(bilan.statut), Valider).Some? ==>
              o == Done
              && EtatBilan(bilan.statut, bilan.dateValidation)
                 == Etape(EtatBilan(old(bilan.statut), old(bilan.dateValidation)), Valider, now)
              && bilan.commentairesPraticien
                 == (if commentaires.Some? then commentaires else old(bilan.commentairesPraticien))
  {
    if bilan.prescription.praticien != praticien {
      return Fail(NotOwner);
    }
    if !bilan.PeutEtreModifie() {
      return Fail(BilanLocked);
    }
    bilan.SetStatut(StatutBilan.Valide, now);
    if commentaires.Some? {
      bilan.commentairesPraticien := commentaires;
    }
    return Done;
  }

  /** Finalises a validated report; the ownership check comes first. */
  method FinaliserBilan(bilan: Bilan, praticien: User, now: Instant) returns (o: Outcome)
    requires bilan.prescription != null
    modifies bilan`statut, bilan`dateValidation
    ensures bilan.prescription.praticien != praticien ==> o == Fail(NotOwner) && unchanged(bilan)
    ensures bilan.prescription.praticien == praticien && Reviser(old(bilan.statut), Finaliser).None? ==>
              o == Fail(BilanNotValidated) && unchanged(bilan)
    ensures bilan.prescription.praticien == praticien && Reviser(old(bilan.statut), Finaliser).Some? ==>
              o == Done
              && EtatBilan(bilan.statut, bilan.dateValidation)
                 == Etape(EtatBilan(old(bilan.statut), old(bilan.dateValidation)), Finaliser, now)
  {
    if bilan.prescription.praticien != praticien {
      return Fail(NotOwner);
    }
    if !bilan.IsValide() {
      return Fail(BilanNotValidated);
    }
    bilan.SetStatut(Finalise, now);
    return Done;
  }

  /** Records the practitioner's comments and puts the report back under review;
      the ownership check comes first. */
  method AjouterCommentaires(bilan: Bilan, praticien: User, commentaires: string,
                             recommandations: Option<string>, now: Instant)
    returns (o: Outcome)
    requires bilan.prescription != null
    modifies bilan`statut, bilan`dateValidation, bilan`commentairesPraticien, bilan`recommandations
    ensures bilan.prescription.praticien != praticien ==> o == Fail(NotOwner) && unchanged(bilan)
    ensures bilan.prescription.praticien == praticien && Reviser(old(bilan.statut), Commenter).None? ==>
              o == Fail(BilanLocked) && unchanged(bilan)
    ensures bilan.prescription.praticien == praticien && Reviser(old(bilan.statut), Commenter).Some? ==>
              o == Done
              && EtatBilan(bilan.statut, bilan.dateValidation)
                 == Etape(EtatBilan(old(bilan.statut), old(bilan.dateValidation)), Commenter, now)
              && bilan.commentairesPraticien == Some(commentaires)
              && bilan.recommandations
                 == (if recommandations.Some? then recommandations else old(bilan.recommandations))
  {
    if bilan.prescription.praticien != praticien {
      return Fail(NotOwner);
    }
    if !bilan.PeutEtreModifie() {
      return Fail(BilanLocked);
    }
    bilan.commentairesPraticien := Some(commentaires);
    if recommandations.Some? {
      bilan.recommandations := recommandations;
    }
    bilan.SetStatut(EnRevision, now);
    return Done;
  }

  // ---------------------------------------------------------------------------
  // comparerBilans

  /** One domain's change between two reports. */
  datatype EvolutionDomaine = EvolutionDomaine(
    domaine: string, scoreInitial: int, scoreFinal: int, evolution: int, nomDomaine: string)

  datatype Comparaison = Comparaison(
    evolutionDg: int, parDomaine: seq<EvolutionDomaine>,
    ameliorations: seq<string>, deteriorations: seq<string>)

  /** The change of a domain of the first report, None when it is DG or when the
      second report does not hold it. */
  function Ecart(e: DomainScore, s2: Scores): Option<int> {
    if e.domaine == Dg then None
    else match Lookup(s2, e.domaine)
      case None => None
      case Some(f) => Some(f.score - e.score)
  }

  /** More than two points gained. */
  predicate Ameliore(e: DomainScore, s2: Scores) { Ecart(e, s2).Some? && Ecart(e, s2).value > 2 }

  /** More than two points lost. */
  predicate Deteriore(e: DomainScore, s2: Scores) { Ecart(e, s2).Some? && Ecart(e, s2).value < -2 }

  /** A domain of the first report that is compared: not DG, and held by the second. */
  predicate Compare(e: DomainScore, s2: Scores) {
    e.domaine != Dg && Lookup(s2, e.domaine).Some?
  }

  /** The comparison entry of a domain of the first report: its score in each
      report, the change between them and its display name (the final score is
      only meaningful for a compared domain). */
  function EntreeEvolution(e: DomainScore, s2: Scores): (r: EvolutionDomaine)
    ensures r.domaine == e.domaine && r.nomDomaine == NomDomaine(e.domaine)
    ensures r.scoreInitial == e.score
    ensures Compare(e, s2) ==> r.scoreFinal == Lookup(s2, e.domaine).value.score
    ensures r.evolution == r.scoreFinal - r.scoreInitial
  {
    var f := Lookup(s2, e.domaine);
    var fin := if f.Some? then f.value.score else e.score;
    EvolutionDomaine(e.domaine, e.score, fin, fin - e.score, NomDomaine(e.domaine))
  }

  /** The per-domain evolutions, in the order of the first report: every entry is
      that of a compared domain of the first report, and every compared domain
      has its entry. */
  function Evolutions(s1: Scores, s2: Scores): (r: seq<EvolutionDomaine>)
    ensures |r| <= |s1|
    ensures forall x :: x in r ==> exists j :: 0 <= j < |s1| && Compare(s1[j], s2) && x == EntreeEvolution(s1[j], s2)
    ensures forall j :: 0 <= j < |s1| && Compare(s1[j], s2) ==> EntreeEvolution(s1[j], s2) in r
  {
    var keep := (e: DomainScore) => Compare(e, s2);
    var entree := (e: DomainScore) => EntreeEvolution(e, s2);
    FilterMapExact(s1, keep, entree);
    CountIsFilterLength(s1, keep);
    FilterMap(s1, keep, entree)
  }

  /** The domains that gained more than two points, in the order of the first report. */
  function Ameliorations(s1: Scores, s2: Scores): seq<string> {
    FilterMap(s1, (e: DomainScore) => Ameliore(e, s2), (e: DomainScore) => e.domaine)
  }

  /** The domains that lost more than two points, in the order of the first report. */
  function Deteriorations(s1: Scores, s2: Scores): seq<string> {
    FilterMap(s1, (e: DomainScore) => Deteriore(e, s2), (e: DomainScore) => e.domaine)
  }

  /** A domain is listed as improved exactly when one of its entries in the first
      report gained more than two points, and likewise for deteriorations. */
  lemma ListesCaracterisees(s1: Scores, s2: Scores, d: string)
    ensures d in Ameliorations(s1, s2) <==> exists j :: 0 <= j < |s1| && s1[j].domaine == d && Ameliore(s1[j], s2)
    ensures d in Deteriorations(s1, s2) <==> exists j :: 0 <= j < |s1| && s1[j].domaine == d && Deteriore(s1[j], s2)
  {
    FilterMapExact(s1, (e: DomainScore) => Ameliore(e, s2), (e: DomainScore) => e.domaine);
    FilterMapExact(s1, (e: DomainScore) => Deteriore(e, s2), (e: DomainScore) => e.domaine);
  }

  predicate DomainesDistincts(s: Scores) {
    forall i, j :: 0 <= i < j < |s| ==> s[i].domaine != s[j].domaine
  }

  /** In a report whose domains are distinct, each entry is the one found for its domain. */
  lemma LookupDistinct(s: Scores, k: nat)
    requires DomainesDistincts(s) && k < |s|
    ensures Lookup(s, s[k].domaine) == Some(s[k])
  {
    LookupIndex(s, s[k].domaine, k);
  }

  /** An improvement seen from the first report is a deterioration seen from the second. */
  lemma AmelioreEchange(s1: Scores, s2: Scores, j: nat)
    requires DomainesDistincts(s1) && DomainesDistincts(s2)
    requires j < |s1| && Ameliore(s1[j], s2)
    ensures exists i :: 0 <= i < |s2| && s2[i].domaine == s1[j].domaine && Deteriore(s2[i], s1)
  {
    var f := Lookup(s2, s1[j].domaine).value;
    var i :| 0 <= i < |s2| && s2[i] == f;
    LookupDistinct(s1, j);
    assert Ecart(s2[i], s1) == Some(s1[j].score - f.score);
  }

  /** A deterioration seen from the first report is an improvement seen from the second. */
  lemma DeterioreEchange(s1: Scores, s2: Scores, j: nat)
    requires DomainesDistincts(s1) && DomainesDistincts(s2)
    requires j < |s1| && Deteriore(s1[j], s2)
    ensures exists i :: 0 <= i < |s2| && s2[i].domaine == s1[j].domaine && Ameliore(s2[i], s1)
  {
    var f := Lookup(s2, s1[j].domaine).value;
    var i :| 0 <= i < |s2| && s2[i] == f;
    LookupDistinct(s1, j);
    assert Ecart(s2[i], s1) == Some(s1[j].score - f.score);
  }

  /** Swapping the two reports turns every improvement into a deterioration and back. */
  lemma ComparaisonAntisymetrique(s1: Scores, s2: Scores, d: string)
    requires DomainesDistincts(s1) && DomainesDistincts(s2)
    ensures d in Ameliorations(s1, s2) <==> d in Deteriorations(s2, s1)
    ensures d in Deteriorations(s1, s2) <==> d in Ameliorations(s2, s1)
  {
    ListesCaracterisees(s1, s2, d);
    ListesCaracterisees(s2, s1, d);
    if d in Ameliorations(s1, s2) {
      var j :| 0 <= j < |s1| && s1[j].domaine == d && Ameliore(s1[j], s2);
      AmelioreEchange(s1, s2, j);
    }
    if d in Deteriorations(s2, s1) {
      var i :| 0 <= i < |s2| && s2[i].domaine == d && Deteriore(s2[i], s1);
      DeterioreEchange(s2, s1, i);
    }
    if d in Deteriorations(s1, s2) {
      var j :| 0 <= j < |s1| && s1[j].domaine == d && Deteriore(s1[j], s2);
      DeterioreEchange(s1, s2, j);
    }
    if d in Ameliorations(s2, s1) {
      var i :| 0 <= i < |s2| && s2[i].domaine == d && Ameliore(s2[i], s1);
      AmelioreEchange(s2, s1, i);
    }
  }

  /** A domain is never listed both as improved and as deteriorated. */
  lemma JamaisLesDeux(s1: Scores, s2: Scores, d: string)
    requires DomainesDistincts(s1)
    ensures !(d in Ameliorations(s1, s2) && d in Deteriorations(s1, s2))
  {
    ListesCaracterisees(s1, s2, d);
  }

  /** comparerBilans: refused for reports of two different patients. */
  function ComparerBilans(b1: Bilan, b2: Bilan): (r: Result<Comparaison>)
    requires b1.prescription != null && b2.prescription != null
    reads b1, b2, b1.prescription, b2.prescription
    ensures b1.prescription.patient != b2.prescription.patient <==> r == Err(DifferentPatients)
    ensures r.Ok? ==> r.value.evolutionDg == DgScore(b2.scoresDetailles) - DgScore(b1.scoresDetailles)
    ensures r.Ok? ==> r.value.parDomaine == Evolutions(b1.scoresDetailles, b2.scoresDetailles)
    ensures r.Ok? ==> r.value.ameliorations == Ameliorations(b1.scoresDetailles, b2.scoresDetailles)
    ensures r.Ok? ==> r.value.deteriorations == Deteriorations(b1.scoresDetailles, b2.scoresDetailles)
  {
    if b1.prescription.patient != b2.prescription.patient then Err(DifferentPatients)
    else
      var s1, s2 := b1.scoresDetailles, b2.scoresDetailles;
      Ok(Comparaison(DgScore(s2) - DgScore(s1), Evolutions(s1, s2), Ameliorations(s1, s2), Deteriorations(s1, s2)))
  }
}
