/** PassationService: starting a session of the test for a prescription, moving it
    through its statuses, and saving the answers given during it. The service keeps
    no state of its own; every operation changes the passation and the prescription
    it is given. The prescription's `passations` stand for what the repository
    returns for it: most recently created first. */
module PassationService {
  import opened Base
  import opened Entities

  // ---------------------------------------------------------------------------
  // The status machine that the service's guards allow.

  /** The service operations that move a passation from one status to another. */
  datatype Action = Reprendre | Suspendre | Abandonner | Terminer

  /** The status an action leads to, or None when the service refuses it:
      resuming needs a session in progress or suspended, suspending needs one in
      progress, and abandoning or finishing is refused only once it is finished. */
  function Next(s: StatutPassation, a: Action): Option<StatutPassation> {
    match a
    case Reprendre => if s == StatutPassation.EnCours || s == Suspendue then Some(StatutPassation.EnCours) else None
    case Suspendre => if s == StatutPassation.EnCours then Some(Suspendue) else None
    case Abandonner => if s == Terminee then None else Some(Abandonnee)
    case Terminer => if s == Terminee then None else Some(Terminee)
  }

  /** The status after a series of requests; a refused request changes nothing. */
  function Run(s: StatutPassation, actions: seq<Action>): StatutPassation
    decreases |actions|
  {
    if actions == [] then s
    else
      var n := Next(s, actions[0]);
      Run(if n.Some? then n.value else s, actions[1..])
  }

  /** A finished passation stays finished whatever is asked of the service. */
  lemma {:induction false} FinishedIsFinal(actions: seq<Action>)
    ensures Run(Terminee, actions) == Terminee
    decreases |actions|
  {
    if actions != [] {
      FinishedIsFinal(actions[1..]);
    }
  }

  /** A newly started passation never reaches `en_cours` nor `suspendue`: only
      resuming leads to `en_cours`, and it is accepted only from `en_cours` or
      `suspendue`, so a started session can only be abandoned or finished. */
  lemma NeverResumedAfterStart(actions: seq<Action>)
    ensures Run(Demarree, actions) in {Demarree, Abandonnee, Terminee}
  {
    StaysOutOfProgress(Demarree, actions);
  }

  lemma {:induction false} StaysOutOfProgress(s: StatutPassation, actions: seq<Action>)
    requires s in {Demarree, Abandonnee, Terminee}
    ensures Run(s, actions) in {Demarree, Abandonnee, Terminee}
    decreases |actions|
  {
    if actions != [] {
      var n := Next(s, actions[0]);
      StaysOutOfProgress(if n.Some? then n.value else s, actions[1..]);
    }
  }

  // ---------------------------------------------------------------------------
  // getPassationEnCours

  /** Started, in progress or suspended: a session that blocks a new one. */
  predicate IsActive(s: StatutPassation) {
    s == Demarree || s == StatutPassation.EnCours || s == Suspendue
  }

  /** The first active passation in repository order, or null. */
  function EnCoursParmi(ps: seq<Passation>): (r: Passation?)
    reads ps
    ensures r == null <==> forall k :: 0 <= k < |ps| ==> !IsActive(ps[k].statut)
    ensures r != null ==> exists k :: 0 <= k < |ps| && ps[k] == r && IsActive(r.statut)
                                       && forall j :: 0 <= j < k ==> !IsActive(ps[j].statut)
    decreases |ps|
  {
    if ps == [] then null
    else if IsActive(ps[0].statut) then ps[0]
    else
      var r := EnCoursParmi(ps[1..]);
      assert r != null ==> exists k :: 1 <= k < |ps| && ps[k] == r && IsActive(r.statut)
                                        && forall j :: 0 <= j < k ==> !IsActive(ps[j].statut) by {
        if r != null {
          var k :| 0 <= k < |ps| - 1 && ps[1..][k] == r && IsActive(r.statut)
                   && forall j :: 0 <= j < k ==> !IsActive(ps[1..][j].statut);
          assert ps[k + 1] == r;
        }
      }
      r
  }

  method GetPassationEnCours(prescription: Prescription) returns (p: Passation?)
    ensures p == EnCoursParmi(prescription.passations)
  {
    var ps := prescription.passations;
    var i := 0;
    while i < |ps|
      invariant 0 <= i <= |ps|
      invariant EnCoursParmi(ps[i..]) == EnCoursParmi(ps)
    {
      if IsActive(ps[i].statut) {
        return ps[i];
      }
      assert ps[i..][1..] == ps[i + 1..];
      i := i + 1;
    }
    return null;
  }

  // ---------------------------------------------------------------------------
  // peutDemarrerPassation

  /** The reasons reported against starting, in the order they are checked. */
  datatype Obstacle = SansConsentement | PassationEnCours | DateLimiteDepassee

  /** The reported obstacles: one per failed check, each at most once, in order. */
  function Obstacles(consentement: bool, enCours: bool, enRetard: bool): (r: seq<Obstacle>)
    ensures SansConsentement in r <==> !consentement
    ensures PassationEnCours in r <==> enCours
    ensures DateLimiteDepassee in r <==> enRetard
    ensures forall i, j :: 0 <= i < j < |r| ==> Rang(r[i]) < Rang(r[j])
  {
    (if consentement then [] else [SansConsentement])
    + (if enCours then [PassationEnCours] else [])
    + (if enRetard then [DateLimiteDepassee] else [])
  }

  function Rang(o: Obstacle): nat {
    match o
    case SansConsentement => 0
    case PassationEnCours => 1
    case DateLimiteDepassee => 2
  }

  method PeutDemarrerPassation(prescription: Prescription, now: Instant)
    returns (peutDemarrer: bool, erreurs: seq<Obstacle>)
    ensures erreurs == Obstacles(prescription.consentementRgpd,
                                 EnCoursParmi(prescription.passations) != null,
                                 prescription.IsEnRetard(now))
    ensures peutDemarrer <==> erreurs == []
  {
    hide EnCoursParmi;
    erreurs := [];
    if !prescription.consentementRgpd {
      erreurs := erreurs + [SansConsentement];
    }
    var enCours := GetPassationEnCours(prescription);
    if enCours != null {
      erreurs := erreurs + [PassationEnCours];
    }
    if prescription.IsEnRetard(now) {
      erreurs := erreurs + [DateLimiteDepassee];
    }
    peutDemarrer := erreurs == [];
  }

  /** What demarrerPassation accepts. */
  predicate DemarrageAccepte(prescription: Prescription)
    reads prescription, prescription.passations
  {
    prescription.PeutEtreDemarree() && EnCoursParmi(prescription.passations) == null
  }

  /** The check and the operation disagree only on the status and the deadline: a
      prescription that can be started reports at most the passed deadline, which
      starting does not enforce, and a waiting prescription with no obstacle can be
      started. */
  lemma ObstaclesAgreeWithStart(prescription: Prescription, now: Instant)
    ensures DemarrageAccepte(prescription) ==>
              Obstacles(prescription.consentementRgpd, EnCoursParmi(prescription.passations) != null,
                        prescription.IsEnRetard(now))
              == (if prescription.IsEnRetard(now) then [DateLimiteDepassee] else [])
    ensures prescription.statut == EnAttente
            && Obstacles(prescription.consentementRgpd, EnCoursParmi(prescription.passations) != null,
                         prescription.IsEnRetard(now)) == []
            ==> DemarrageAccepte(prescription)
  {
  }

  // ---------------------------------------------------------------------------
  // demarrerPassation

  /** A passation as demarrerPassation creates it: linked to the prescription,
      started now, with the birth date, the age it implies, the request data and no
      answers yet. */
  predicate PassationDemarree(p: Passation, prescription: Prescription, dateNaissance: Date, age: Interval,
                              request: Option<RequestInfo>, now: Instant)
    reads p
  {
    p.prescription == prescription && p.statut == Demarree
    && p.dateDebut == Some(now) && p.dateFin.None? && p.createdAt == now
    && p.dateNaissance == Some(dateNaissance)
    && p.ageChronologiqueMois == Some(age.y * 12 + age.m)
    && p.reponses == map[] && p.progression == 0 && p.partieCourante.None?
    && p.adresseIp == (if request.Some? then request.value.clientIp else None)
    && p.userAgent == (if request.Some? then request.value.userAgent else None)
  }

  /** Builds the new passation of demarrerPassation, before it is persisted. */
  method NouvellePassation(prescription: Prescription, dateNaissance: Date, age: Interval,
                           request: Option<RequestInfo>, now: Instant)
    returns (p: Passation)
    ensures fresh(p) && PassationDemarree(p, prescription, dateNaissance, age, request, now)
  {
    p := new Passation(now);
    p.prescription := prescription;
    p.SetDateNaissance(dateNaissance, age);
    p.SetStatut(Demarree, now);
    if request.Some? {
      p.adresseIp := request.value.clientIp;
      p.userAgent := request.value.userAgent;
    }
  }

  /** Starts a session. `age` is the calendar difference between the birth date
      and now, as the new passation measures it before it is stamped as started.
      Persisting the passation makes it the prescription's most recent one. */
  method DemarrerPassation(prescription: Prescription, dateNaissance: Date, age: Interval,
                           request: Option<RequestInfo>, now: Instant)
    returns (r: Result<Passation>)
    modifies prescription`statut, prescription`passations
    ensures !old(prescription.PeutEtreDemarree()) ==> r == Err(PrescriptionNotStartable)
    ensures old(prescription.PeutEtreDemarree()) && old(EnCoursParmi(prescription.passations)) != null
            ==> r == Err(PassationAlreadyActive)
    ensures r.Err? ==> prescription.statut == old(prescription.statut)
                       && prescription.passations == old(prescription.passations)
    ensures r.Ok? <==> old(DemarrageAccepte(prescription))
    ensures r.Ok? ==>
              fresh(r.value) && PassationDemarree(r.value, prescription, dateNaissance, age, request, now)
              && prescription.statut == StatutPrescription.EnCours
              && prescription.passations == [r.value] + old(prescription.passations)
  {
    hide EnCoursParmi, PassationDemarree;
    if !prescription.PeutEtreDemarree() {
      return Err(PrescriptionNotStartable);
    }
    var enCours := GetPassationEnCours(prescription);
    if enCours != null {
      return Err(PassationAlreadyActive);
    }
    var p := NouvellePassation(prescription, dateNaissance, age, request, now);
    prescription.statut := StatutPrescription.EnCours;
    prescription.passations := [p] + prescription.passations;
    return Ok(p);
  }

  /** Once a session is started, the prescription cannot be started again. */
  lemma NoSecondStart(prescription: Prescription)
    requires prescription.statut == StatutPrescription.EnCours
    ensures !DemarrageAccepte(prescription)
  {
  }

  // ---------------------------------------------------------------------------
  // reprendrePassation, suspendrePassation, abandonnerPassation, terminerPassation

  method ReprendrePassation(p: Passation, now: Instant) returns (o: Outcome)
    modifies p`statut, p`dateDebut, p`dateFin, p`dureeMinutes
    ensures Next(old(p.statut), Reprendre).None? ==> o == Fail(CannotResume) && p.statut == old(p.statut)
    ensures Next(old(p.statut), Reprendre).Some? ==> o == Done && p.statut == Next(old(p.statut), Reprendre).value
    ensures p.dateDebut == old(p.dateDebut) && p.dateFin == old(p.dateFin) && p.dureeMinutes == old(p.dureeMinutes)
  {
    if !p.PeutEtreReprise() {
      return Fail(CannotResume);
    }
    p.SetStatut(StatutPassation.EnCours, now);
    return Done;
  }

  method SuspendrePassation(p: Passation, now: Instant) returns (o: Outcome)
    modifies p`statut, p`dateDebut, p`dateFin, p`dureeMinutes
    ensures Next(old(p.statut), Suspendre).None? ==> o == Fail(NotInProgress) && p.statut == old(p.statut)
    ensures Next(old(p.statut), Suspendre).Some? ==> o == Done && p.statut == Next(old(p.statut), Suspendre).value
    ensures p.dateDebut == old(p.dateDebut) && p.dateFin == old(p.dateFin) && p.dureeMinutes == old(p.dureeMinutes)
  {
    if p.statut != StatutPassation.EnCours {
      return Fail(NotInProgress);
    }
    p.SetStatut(Suspendue, now);
    return Done;
  }

  /** Abandons the session and puts its prescription back to waiting. */
  method AbandonnerPassation(p: Passation, now: Instant) returns (o: Outcome)
    requires p.prescription != null
    modifies p`statut, p`dateDebut, p`dateFin, p`dureeMinutes, p.prescription`statut
    ensures Next(old(p.statut), Abandonner).None? ==>
              o == Fail(FinishedCannotBeAbandoned) && p.statut == old(p.statut)
              && p.prescription.statut == old(p.prescription.statut)
    ensures Next(old(p.statut), Abandonner).Some? ==>
              o == Done && p.statut == Next(old(p.statut), Abandonner).value
              && p.prescription.statut == EnAttente
    ensures p.dateDebut == old(p.dateDebut) && p.dateFin == old(p.dateFin) && p.dureeMinutes == old(p.dureeMinutes)
  {
    if p.IsTerminee() {
      return Fail(FinishedCannotBeAbandoned);
    }
    p.SetStatut(Abandonnee, now);
    p.prescription.statut := EnAttente;
    return Done;
  }

  /** Finishes the session: full progression, end date and duration stamped the
      first time, and the prescription marked finished. */
  method TerminerPassation(p: Passation, now: Instant) returns (o: Outcome)
    requires p.prescription != null
    modifies p`statut, p`dateDebut, p`dateFin, p`dureeMinutes, p`progression, p.prescription`statut
    ensures Next(old(p.statut), Terminer).None? ==>
              o == Fail(AlreadyFinished) && unchanged(p) && p.prescription.statut == old(p.prescription.statut)
    ensures Next(old(p.statut), Terminer).Some? ==>
              o == Done && p.statut == Next(old(p.statut), Terminer).value && p.progression == 100
              && p.prescription.statut == Termine && p.dateDebut == old(p.dateDebut)
              && p.dateFin == (if old(p.dateFin).None? then Some(now) else old(p.dateFin))
              && p.dureeMinutes == (if old(p.dateFin).None? && p.dateDebut.Some?
                                    then Some(DureeMinutes(p.dateDebut.value, now))
                                    else old(p.dureeMinutes))
  {
    if p.IsTerminee() {
      return Fail(AlreadyFinished);
    }
    p.SetStatut(Terminee, now);
    p.SetProgression(100);
    p.prescription.statut := Termine;
    return Done;
  }

  // ---------------------------------------------------------------------------
  // Answers and progression

  /** `in_array($reponse, ['oui', 'non'])`. */
  predicate EstReponseValide(reponse: string) {
    reponse == "oui" || reponse == "non"
  }

  /** calculerProgression: the share of an estimated 200 items, as a rounded
      percentage capped at 100. */
  function Progression(nombreReponses: nat): (p: int)
    ensures 0 <= p <= 100
    ensures nombreReponses >= 200 ==> p == 100
    ensures nombreReponses < 200 ==> nombreReponses <= 2 * p <= nombreReponses + 1
  {
    var arrondi := (nombreReponses + 1) / 2;
    if arrondi > 100 then 100 else arrondi
  }

  /** More answers never show less progress. */
  lemma ProgressionMonotone(a: nat, b: nat)
    requires a <= b
    ensures Progression(a) <= Progression(b)
  {
  }

  method CalculerProgression(p: Passation)
    requires p.prescription != null
    modifies p`progression
    ensures p.progression == Progression(|p.reponses|)
  {
    var nombreReponses := p.NombreReponses();
    p.SetProgression(Progression(nombreReponses));
  }

  /** Saves one answer; any answer other than "oui" or "non" is refused before
      anything is written. The status is not checked. */
  method SauvegarderReponse(p: Passation, itemId: string, reponse: string,
                            partieCourante: Option<string>, now: Instant)
    returns (o: Outcome)
    requires p.prescription != null
    modifies p`reponses, p`updatedAt, p`partieCourante, p`progression
    ensures !EstReponseValide(reponse) ==> o == Fail(InvalidAnswer) && unchanged(p)
    ensures EstReponseValide(reponse) ==>
              o == Done && p.reponses == old(p.reponses)[itemId := reponse] && p.updatedAt == now
              && p.partieCourante == (if partieCourante.Some? then partieCourante else old(p.partieCourante))
              && p.progression == Progression(|p.reponses|)
  {
    if !EstReponseValide(reponse) {
      return Fail(InvalidAnswer);
    }
    p.AjouterReponse(itemId, reponse, now);
    if partieCourante.Some? {
      p.partieCourante := partieCourante;
    }
    CalculerProgression(p);
    return Done;
  }

  /** The answers after writing a batch in order: a later entry for the same item
      overwrites an earlier one. */
  function Appliquer(m: map<string, string>, entries: seq<(string, string)>): map<string, string>
    decreases |entries|
  {
    if entries == [] then m
    else Appliquer(m, entries[..|entries| - 1])[entries[|entries| - 1].0 := entries[|entries| - 1].1]
  }

  /** Applying a batch adds exactly its items, keeps the answers it does not
      mention, and takes the last answer given for an item. */
  lemma {:induction false} AppliquerEffet(m: map<string, string>, entries: seq<(string, string)>, key: string)
    ensures key in Appliquer(m, entries) <==> key in m || exists i :: 0 <= i < |entries| && entries[i].0 == key
    ensures (forall i :: 0 <= i < |entries| ==> entries[i].0 != key) && key in m ==>
              Appliquer(m, entries)[key] == m[key]
    ensures forall i :: 0 <= i < |entries| && entries[i].0 == key
                        && (forall j :: i < j < |entries| ==> entries[j].0 != key) ==>
              Appliquer(m, entries)[key] == entries[i].1
    decreases |entries|
  {
    if entries != [] {
      var init := entries[..|entries| - 1];
      AppliquerEffet(m, init, key);
      assert forall i :: 0 <= i < |init| ==> init[i] == entries[i];
    }
  }

  /** The position of the first entry whose answer is refused, if any. */
  function PremiereInvalide(entries: seq<(string, string)>): (r: Option<nat>)
    ensures r.None? <==> forall i :: 0 <= i < |entries| ==> EstReponseValide(entries[i].1)
    ensures r.Some? ==> r.value < |entries| && !EstReponseValide(entries[r.value].1)
                        && forall i :: 0 <= i < r.value ==> EstReponseValide(entries[i].1)
    decreases |entries|
  {
    if entries == [] then None
    else if !EstReponseValide(entries[0].1) then Some(0)
    else match PremiereInvalide(entries[1..])
      case None => None
      case Some(k) => Some(k + 1)
  }

  /** The service stores only "oui" and "non": a batch it accepts keeps every
      stored answer valid. */
  lemma {:induction false} ReponsesRestentValides(m: map<string, string>, entries: seq<(string, string)>)
    requires forall k :: k in m ==> EstReponseValide(m[k])
    requires forall i :: 0 <= i < |entries| ==> EstReponseValide(entries[i].1)
    ensures forall k :: k in Appliquer(m, entries) ==> EstReponseValide(Appliquer(m, entries)[k])
    decreases |entries|
  {
    if entries != [] {
      ReponsesRestentValides(m, entries[..|entries| - 1]);
    }
  }

  /** Saves a batch of answers in order. An entry whose answer is refused stops
      the batch: the entries before it stay written, and neither the current part
      nor the progression is updated. */
  method SauvegarderReponses(p: Passation, entries: seq<(string, string)>,
                             partieCourante: Option<string>, now: Instant)
    returns (o: Outcome)
    requires p.prescription != null
    modifies p`reponses, p`updatedAt, p`partieCourante, p`progression
    ensures match PremiereInvalide(entries)
      case Some(k) =>
        o == Fail(InvalidAnswerFor(entries[k].0))
        && p.reponses == Appliquer(old(p.reponses), entries[..k])
        && p.updatedAt == (if k > 0 then now else old(p.updatedAt))
        && p.partieCourante == old(p.partieCourante) && p.progression == old(p.progression)
      case None =>
        o == Done && p.reponses == Appliquer(old(p.reponses), entries)
        && p.updatedAt == (if entries != [] then now else old(p.updatedAt))
        && p.partieCourante == (if partieCourante.Some? then partieCourante else old(p.partieCourante))
        && p.progression == Progression(|p.reponses|)
  {
    var i := 0;
    while i < |entries|
      invariant 0 <= i <= |entries|
      invariant forall j :: 0 <= j < i ==> EstReponseValide(entries[j].1)
      invariant p.reponses == Appliquer(old(p.reponses), entries[..i])
      invariant p.updatedAt == (if i > 0 then now else old(p.updatedAt))
      invariant p.partieCourante == old(p.partieCourante) && p.progression == old(p.progression)
    {
      if !EstReponseValide(entries[i].1) {
        PremiereInvalideAt(entries, i);
        return Fail(InvalidAnswerFor(entries[i].0));
      }
      assert entries[..i + 1][..i] == entries[..i];
      p.AjouterReponse(entries[i].0, entries[i].1, now);
      i := i + 1;
    }
    assert entries[..|entries|] == entries;
    if partieCourante.Some? {
      p.partieCourante := partieCourante;
    }
    CalculerProgression(p);
    return Done;
  }

  lemma PremiereInvalideAt(entries: seq<(string, string)>, i: nat)
    requires i < |entries| && !EstReponseValide(entries[i].1)
    requires forall j :: 0 <= j < i ==> EstReponseValide(entries[j].1)
    ensures PremiereInvalide(entries) == Some(i)
  {
  }
}
