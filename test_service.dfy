/** TestService: prescribing catalogue tests to a practitioner's patients, cancelling
    and validating prescriptions, and the checks shown before a patient takes a test.
    The service keeps no state of its own; the age of the patient is computed from
    the calendar difference `age` between the birth date and now, which the caller
    supplies. */
module TestService {
  import opened Base
  import opened Entities

  // ---------------------------------------------------------------------------
  // prescrireTest, prescrirePlusieursTests

  /** Why prescribing `test` to `patient` is refused, in the order the checks run:
      the patient must belong to the practitioner and, for an IDE test, the patient's
      age in months must lie within the test's bounds, both inclusive. */
  function Refus(praticien: User, patient: Patient, test: Test, age: Interval): (r: Option<Failure>)
    reads patient, test
    ensures r.None? <==> patient.praticien == praticien
                         && (test.isIde ==> test.ageMinMois <= patient.AgeEnMois(age) <= test.ageMaxMois)
    ensures patient.praticien != praticien ==> r == Some(PatientNotOwned)
    ensures patient.praticien == praticien && r.Some? ==> r == Some(AgeIncompatible)
  {
    if patient.praticien != praticien then Some(PatientNotOwned)
    else if test.isIde && !test.IsCompatibleAvecAge(patient.AgeEnMois(age)) then Some(AgeIncompatible)
    else None
  }

  /** A new prescription holding exactly what it was created with, otherwise in its
      initial state: waiting, no consent, no session and no report yet. */
  predicate Prescrite(p: Prescription, praticien: User, patient: Patient, test: Test,
                      instructions: Option<string>, dateLimite: Option<Instant>, priorite: int)
    reads p
  {
    p.praticien == praticien && p.patient == patient && p.test == test
    && p.instructions == instructions && p.dateLimite == dateLimite && p.priorite == priorite
    && p.statut == EnAttente && !p.consentementRgpd && p.dateConsentement.None?
    && p.commentaires.None? && p.passations == [] && p.bilans == []
  }

  /** prescrireTest. Persisting the prescription is returning it; no existing object
      changes. */
  method PrescrireTest(praticien: User, patient: Patient, test: Test, instructions: Option<string>,
                       dateLimite: Option<Instant>, priorite: int, age: Interval)
    returns (r: Result<Prescription>)
    ensures r.Err? <==> Refus(praticien, patient, test, age).Some?
    ensures r.Err? ==> r.error == Refus(praticien, patient, test, age).value
    ensures r.Ok? ==> fresh(r.value) && Prescrite(r.value, praticien, patient, test, instructions, dateLimite, priorite)
  {
    if patient.praticien != praticien {
      return Err(PatientNotOwned);
    }
    if test.isIde {
      var ageEnMois := patient.AgeEnMois(age);
      if ageEnMois < test.ageMinMois || ageEnMois > test.ageMaxMois {
        return Err(AgeIncompatible);
      }
    }
    var prescription := new Prescription();
    prescription.praticien := praticien;
    prescription.patient := patient;
    prescription.test := test;
    prescription.instructions := instructions;
    prescription.dateLimite := dateLimite;
    prescription.priorite := priorite;
    return Ok(prescription);
  }

  /** The position of the first test that would be refused, or the number of tests
      when none is. */
  function PremierRefus(praticien: User, patient: Patient, tests: seq<Test>, age: Interval): (n: nat)
    reads patient, tests
    ensures n <= |tests|
    ensures forall k :: 0 <= k < n ==> Refus(praticien, patient, tests[k], age).None?
    ensures n < |tests| ==> Refus(praticien, patient, tests[n], age).Some?
  {
    if tests == [] then 0
    else if Refus(praticien, patient, tests[0], age).Some? then 0
    else 1 + PremierRefus(praticien, patient, tests[1..], age)
  }

  /** The first refusal is the only position that meets PremierRefus' description. */
  lemma {:induction false} PremierRefusUnique(praticien: User, patient: Patient, tests: seq<Test>,
                                               age: Interval, n: nat)
    requires n <= |tests|
    requires forall k :: 0 <= k < n ==> Refus(praticien, patient, tests[k], age).None?
    requires n < |tests| ==> Refus(praticien, patient, tests[n], age).Some?
    ensures PremierRefus(praticien, patient, tests, age) == n
    decreases n
  {
    if n > 0 {
      PremierRefusUnique(praticien, patient, tests[1..], age, n - 1);
    }
  }

  /** prescrirePlusieursTests: one prescription per test, in order, until the first
      refusal, which the source raises to the caller. `creees` are the prescriptions
      already persisted by then (all of them when `erreur` is None). */
  method PrescrirePlusieursTests(praticien: User, patient: Patient, tests: seq<Test>,
                                 instructions: Option<string>, dateLimite: Option<Instant>,
                                 priorite: int, age: Interval)
    returns (creees: seq<Prescription>, erreur: Option<Failure>)
    ensures |creees| == PremierRefus(praticien, patient, tests, age)
    ensures erreur.None? <==> |creees| == |tests|
    ensures erreur.Some? ==> erreur == Refus(praticien, patient, tests[|creees|], age)
    ensures forall k :: 0 <= k < |creees| ==>
              fresh(creees[k]) && Prescrite(creees[k], praticien, patient, tests[k], instructions, dateLimite, priorite)
    ensures forall i, j :: 0 <= i < j < |creees| ==> creees[i] != creees[j]
  {
    creees := [];
    for k := 0 to |tests|
      invariant |creees| == k
      invariant forall j :: 0 <= j < k ==> Refus(praticien, patient, tests[j], age).None?
      invariant forall j :: 0 <= j < k ==>
                  fresh(creees[j]) && Prescrite(creees[j], praticien, patient, tests[j], instructions, dateLimite, priorite)
      invariant forall i, j :: 0 <= i < j < k ==> creees[i] != creees[j]
    {
      var r := PrescrireTest(praticien, patient, tests[k], instructions, dateLimite, priorite, age);
      if r.Err? {
        PremierRefusUnique(praticien, patient, tests, age, k);
        return creees, Some(r.error);
      }
      creees := creees + [r.value];
    }
    PremierRefusUnique(praticien, patient, tests, age, |tests|);
    erreur := None;
  }

  // ---------------------------------------------------------------------------
  // annulerPrescription, validerPrescription

  datatype Gestion = Annuler | Valider

  /** The status a management request leads to, or None when it is refused.
      Cancelling is refused only for a validated prescription; validating needs a
      finished prescription whose latest session is finished (`derniereTerminee`). */
  function Apres(s: StatutPrescription, a: Gestion, derniereTerminee: bool): (r: Option<StatutPrescription>)
    ensures a == Annuler ==> (r.None? <==> s == StatutPrescription.Valide) && (r.Some? ==> r.value == Annule)
    ensures a == Valider ==> (r.Some? <==> s == Termine && derniereTerminee) && (r.Some? ==> r.value == StatutPrescription.Valide)
  {
    match a
    case Annuler => if s == StatutPrescription.Valide then None else Some(Annule)
    case Valider => if s == Termine && derniereTerminee then Some(StatutPrescription.Valide) else None
  }

  /** The status after a series of requests, refused ones leaving it as it was. */
  function Gerer(s: StatutPrescription, requetes: seq<Gestion>, derniereTerminee: bool): StatutPrescription
    decreases |requetes|
  {
    if requetes == [] then s
    else
      var n := Apres(s, requetes[0], derniereTerminee);
      Gerer(if n.Some? then n.value else s, requetes[1..], derniereTerminee)
  }

  /** A validated or cancelled prescription keeps its status whatever is requested
      afterwards. */
  lemma {:induction false} StatutsDefinitifs(s: StatutPrescription, requetes: seq<Gestion>, derniereTerminee: bool)
    requires s == StatutPrescription.Valide || s == Annule
    ensures Gerer(s, requetes, derniereTerminee) == s
    decreases |requetes|
  {
    if requetes != [] {
      StatutsDefinitifs(s, requetes[1..], derniereTerminee);
    }
  }

  /** The latest session of the prescription exists and is finished. */
  predicate DerniereTerminee(p: Prescription)
    reads p, p.passations
  {
    p.DernierePassation() != null && p.DernierePassation().statut == Terminee
  }

  /** Validating through the status function agrees with `peutEtreValidee`. */
  lemma ValiderSsiPeutEtreValidee(p: Prescription)
    ensures Apres(p.statut, Valider, DerniereTerminee(p)).Some? <==> p.PeutEtreValidee()
  {
  }

  /** annulerPrescription. */
  method AnnulerPrescription(prescription: Prescription, praticien: User) returns (o: Outcome)
    modifies prescription`statut
    ensures prescription.praticien != praticien ==> o == Fail(NotOwner) && prescription.statut == old(prescription.statut)
    ensures prescription.praticien == praticien && Apres(old(prescription.statut), Annuler, false).None? ==>
              o == Fail(PrescriptionValidated) && prescription.statut == old(prescription.statut)
    ensures prescription.praticien == praticien && Apres(old(prescription.statut), Annuler, false).Some? ==>
              o == Done && prescription.statut == Apres(old(prescription.statut), Annuler, false).value
  {
    if prescription.praticien != praticien {
      return Fail(NotOwner);
    }
    if prescription.statut == StatutPrescription.Valide {
      return Fail(PrescriptionValidated);
    }
    prescription.statut := Annule;
    return Done;
  }

  /** validerPrescription. */
  method ValiderPrescription(prescription: Prescription, praticien: User) returns (o: Outcome)
    modifies prescription`statut
    ensures prescription.praticien != praticien ==> o == Fail(NotOwner) && prescription.statut == old(prescription.statut)
    ensures prescription.praticien == praticien && !old(prescription.PeutEtreValidee()) ==>
              o == Fail(PrescriptionNotValidatable) && prescription.statut == old(prescription.statut)
    ensures prescription.praticien == praticien && old(prescription.PeutEtreValidee()) ==>
              o == Done
              && prescription.statut == Apres(old(prescription.statut), Valider, DerniereTerminee(prescription)).value
  {
    if prescription.praticien != praticien {
      return Fail(NotOwner);
    }
    if !prescription.PeutEtreValidee() {
      return Fail(PrescriptionNotValidatable);
    }
    prescription.statut := StatutPrescription.Valide;
    return Done;
  }

  // ---------------------------------------------------------------------------
  // peutPasserTest

  /** The reasons reported against taking the test, in the order they are checked. */
  datatype Empechement = ConsentementManquant | DateLimiteDepassee | NonDemarrable

  /** The reported reasons: one per failed check, in order. */
  function Empechements(consentement: bool, enRetard: bool, demarrable: bool): (r: seq<Empechement>)
    ensures ConsentementManquant in r <==> !consentement
    ensures DateLimiteDepassee in r <==> enRetard
    ensures NonDemarrable in r <==> !demarrable
    ensures |r| <= 3
  {
    (if consentement then [] else [ConsentementManquant])
    + (if enRetard then [DateLimiteDepassee] else [])
    + (if demarrable then [] else [NonDemarrable])
  }

  /** peutPasserTest: the list of reasons and whether it is empty. */
  method PeutPasserTest(prescription: Prescription, now: Instant) returns (peutPasser: bool, erreurs: seq<Empechement>)
    ensures erreurs == Empechements(prescription.consentementRgpd, prescription.IsEnRetard(now),
                                    prescription.PeutEtreDemarree())
    ensures peutPasser <==> erreurs == []
    ensures peutPasser <==> prescription.statut == EnAttente && prescription.consentementRgpd
                            && !prescription.IsEnRetard(now)
  {
    erreurs := [];
    if !prescription.consentementRgpd {
      erreurs := erreurs + [ConsentementManquant];
    }
    if prescription.IsEnRetard(now) {
      erreurs := erreurs + [DateLimiteDepassee];
    }
    if !prescription.PeutEtreDemarree() {
      erreurs := erreurs + [NonDemarrable];
    }
    peutPasser := erreurs == [];
  }

  /** Missing consent is reported twice over: as such, and as the prescription not
      being startable. */
  lemma ConsentementManquantDoublement(prescription: Prescription, now: Instant)
    requires !prescription.consentementRgpd
    ensures var e := Empechements(prescription.consentementRgpd, prescription.IsEnRetard(now),
                                  prescription.PeutEtreDemarree());
            e[0] == ConsentementManquant && e[|e| - 1] == NonDemarrable && |e| >= 2
  {
  }
}
