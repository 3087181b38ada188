/** The persistent entities of the application: catalogue tests and items, patients,
    prescriptions, test sessions (passations), reports (bilans) and activation tokens.
    They reference one another, so they share one module. Fields the application
    updates in place are `var`s; catalogue data that the scoring path only reads is
    `const`. Every `new \DateTime()` of the source is a `now` parameter. */
module Entities {
  import opened Base
  import opened Ide

  /** A practitioner account; only its identity matters here. */
  class User {
    constructor () {}
  }

  // ===========================================================================
  // Test / TestIDE

  /** A test of the catalogue. The only concrete kind is the IDE test, flagged by
      `isIde`; `items` is the IDE question bank (empty for any other kind). */
  class Test {
    const isIde: bool
    var nom: string
    var version: string
    var ageMinMois: int
    var ageMaxMois: int
    var description: string
    var actif: bool
    var prescriptions: seq<Prescription>
    var items: seq<ItemIDE>

    constructor (isIde: bool, nom: string, version: string, ageMinMois: int, ageMaxMois: int,
                 description: string)
      ensures this.isIde == isIde && this.nom == nom && this.version == version
      ensures this.ageMinMois == ageMinMois && this.ageMaxMois == ageMaxMois
      ensures this.description == description
      ensures actif && prescriptions == [] && items == []
    {
      this.isIde := isIde;
      this.nom := nom;
      this.version := version;
      this.ageMinMois := ageMinMois;
      this.ageMaxMois := ageMaxMois;
      this.description := description;
      actif := true;
      prescriptions := [];
      items := [];
    }

    /** Both age bounds are inclusive; no age fits a test whose bounds are reversed. */
    function IsCompatibleAvecAge(ageMois: int): (r: bool)
      reads this
      ensures r <==> ageMinMois <= ageMois <= ageMaxMois
      ensures ageMaxMois < ageMinMois ==> !r
    {
      ageMois >= ageMinMois && ageMois <= ageMaxMois
    }

    /** The name followed by the version in parentheses. */
    function NomComplet(): (r: string)
      reads this
      ensures |r| == |nom| + |version| + 3
      ensures r[..|nom|] == nom && r[|nom|..|nom| + 2] == " (" && r[|r| - 1] == ')'
      ensures r[|nom| + 2..|r| - 1] == version
    {
      nom + " (" + version + ")"
    }

    method AddPrescription(p: Prescription)
      modifies this`prescriptions, p`test
      ensures old(p in prescriptions) ==> prescriptions == old(prescriptions) && p.test == old(p.test)
      ensures old(p !in prescriptions) ==> prescriptions == old(prescriptions) + [p] && p.test == this
      ensures p in prescriptions
    {
      if p !in prescriptions {
        prescriptions := prescriptions + [p];
        p.test := this;
      }
    }

    /** Removes the prescription; its owning side is cleared only while it still
        points to this test. */
    method RemovePrescription(p: Prescription)
      modifies this`prescriptions, p`test
      ensures prescriptions == RemoveFirst(old(prescriptions), p)
      ensures old(p in prescriptions) && old(p.test) == this ==> p.test == null
      ensures !(old(p in prescriptions) && old(p.test) == this) ==> p.test == old(p.test)
    {
      if p in prescriptions {
        prescriptions := RemoveFirst(prescriptions, p);
        if p.test == this {
          p.test := null;
        }
      }
    }

    /** TestIDE::addItem: never stores an item twice, and links it back. */
    method AddItem(item: ItemIDE)
      modifies this`items, item`testIde
      ensures old(item in items) ==> items == old(items) && item.testIde == old(item.testIde)
      ensures old(item !in items) ==> items == old(items) + [item] && item.testIde == this
      ensures item in items
    {
      if item !in items {
        items := items + [item];
        item.testIde := this;
      }
    }

    method RemoveItem(item: ItemIDE)
      modifies this`items, item`testIde
      ensures items == RemoveFirst(old(items), item)
      ensures old(item in items) && old(item.testIde) == this ==> item.testIde == null
      ensures !(old(item in items) && old(item.testIde) == this) ==> item.testIde == old(item.testIde)
    {
      if item in items {
        items := RemoveFirst(items, item);
        if item.testIde == this {
          item.testIde := null;
        }
      }
    }

    /** TestIDE::getItemsParPartie. */
    function ItemsParPartie(partie: string): (r: seq<ItemIDE>)
      reads this
      ensures forall k :: 0 <= k < |r| ==> r[k] in items && r[k].partie == partie
      ensures forall k :: 0 <= k < |items| && items[k].partie == partie ==> items[k] in r
    {
      Filter(items, (i: ItemIDE) => i.partie == partie)
    }

    /** TestIDE::getItemsParDomaine. */
    function ItemsParDomaine(domaine: string): (r: seq<ItemIDE>)
      reads this
      ensures forall k :: 0 <= k < |r| ==> r[k] in items && r[k].domaine == domaine
      ensures forall k :: 0 <= k < |items| && items[k].domaine == domaine ==> items[k] in r
    {
      Filter(items, (i: ItemIDE) => i.domaine == domaine)
    }

    /** TestIDE::getItemsDG: the items flagged as counting for general development. */
    function ItemsDg(): (r: seq<ItemIDE>)
      reads this
      ensures forall k :: 0 <= k < |r| ==> r[k] in items && r[k].compteDg
      ensures forall k :: 0 <= k < |items| && items[k].compteDg ==> items[k] in r
    {
      Filter(items, (i: ItemIDE) => i.compteDg)
    }
  }

  // ===========================================================================
  // ItemIDE

  /** One question of the IDE bank. The catalogue fields never change on the
      scoring path, so they are constants. */
  class ItemIDE {
    const partie: string
    const domaine: string
    const ordre: int
    const texte: string
    const compteDg: bool
    const ageMinMois: Option<int>
    const ageMaxMois: Option<int>
    const actif: bool
    var testIde: Test?

    /** A new item with the entity's defaults: not counted for DG, active, no age bounds. */
    constructor (partie: string, domaine: string, ordre: int, texte: string)
      ensures this.partie == partie && this.domaine == domaine && this.ordre == ordre
      ensures this.texte == texte
      ensures !compteDg && actif && ageMinMois.None? && ageMaxMois.None? && testIde == null
    {
      this.partie := partie;
      this.domaine := domaine;
      this.ordre := ordre;
      this.texte := texte;
      compteDg := false;
      ageMinMois := None;
      ageMaxMois := None;
      actif := true;
      testIde := null;
    }

    /** An item as the catalogue configures it, every field given. */
    constructor Configure(partie: string, domaine: string, ordre: int, texte: string,
                          compteDg: bool, ageMinMois: Option<int>, ageMaxMois: Option<int>,
                          actif: bool)
      ensures this.partie == partie && this.domaine == domaine && this.ordre == ordre
      ensures this.texte == texte && this.compteDg == compteDg && this.actif == actif
      ensures this.ageMinMois == ageMinMois && this.ageMaxMois == ageMaxMois && testIde == null
    {
      this.partie := partie;
      this.domaine := domaine;
      this.ordre := ordre;
      this.texte := texte;
      this.compteDg := compteDg;
      this.ageMinMois := ageMinMois;
      this.ageMaxMois := ageMaxMois;
      this.actif := actif;
      testIde := null;
    }

    /** An age is applicable when it lies within both bounds, each inclusive and
        each ignored when absent. */
    function IsApplicableAge(ageMois: int): (r: bool)
      ensures r <==> (ageMinMois.None? || ageMinMois.value <= ageMois)
                     && (ageMaxMois.None? || ageMois <= ageMaxMois.value)
    {
      if ageMinMois.Some? && ageMois < ageMinMois.value then false
      else if ageMaxMois.Some? && ageMois > ageMaxMois.value then false
      else true
    }

    /** The key of this item in a passation's answer map: `partie_domaine_ordre`. */
    function Identifiant(): string {
      FormatIdentifiant(partie, domaine, ordre)
    }

    function NomDomaine(): (r: string)
      ensures domaine !in DomainCodes ==> r == domaine
      ensures domaine in DomainCodes ==> r in DomainNames
    {
      Ide.NomDomaine(domaine)
    }

    function NomPartie(): (r: string)
      ensures partie !in PartCodes ==> r == partie
      ensures partie in PartCodes ==> r in PartNames
    {
      Ide.NomPartie(partie)
    }
  }

  /** `sprintf('%s_%s_%d', ...)`: the three fields joined with underscores. */
  function FormatIdentifiant(partie: string, domaine: string, ordre: int): string {
    JoinWith([partie, domaine, IntToString(ordre)], '_')
  }

  /** The parts separated by `sep`. */
  function JoinWith(parts: seq<string>, sep: char): string {
    if parts == [] then []
    else if |parts| == 1 then parts[0]
    else JoinWith(parts[..|parts| - 1], sep) + [sep] + parts[|parts| - 1]
  }

  /** Splits `s` at the first occurrence of `c`. */
  function SplitFirst(s: string, c: char): (r: Option<(string, string)>)
    ensures r.None? <==> c !in s
    ensures r.Some? ==> c !in r.value.0 && s == r.value.0 + [c] + r.value.1
  {
    match IndexOf(s, c)
    case None => None
    case Some(k) =>
      assert s == s[..k] + [c] + s[k + 1..];
      Some((s[..k], s[k + 1..]))
  }

  lemma {:induction false} IndexOfAfter(a: string, c: char, b: string)
    requires c !in a
    ensures IndexOf(a + [c] + b, c) == Some(|a|)
  {
    if a == [] {
      assert a + [c] + b == [c] + b;
    } else {
      assert (a + [c] + b)[1..] == a[1..] + [c] + b;
      IndexOfAfter(a[1..], c, b);
    }
  }

  lemma SplitFirstOf(a: string, c: char, b: string)
    requires c !in a
    ensures SplitFirst(a + [c] + b, c) == Some((a, b))
  {
    var s := a + [c] + b;
    IndexOfAfter(a, c, b);
    assert s[..|a|] == a && s[|a| + 1..] == b;
  }

  /** An item's key reads back as its part, domain and order when the codes
      contain no underscore. */
  lemma IdentifiantLisible(item: ItemIDE)
    ensures '_' !in item.partie && '_' !in item.domaine ==>
              ParseIdentifiant(item.Identifiant()) == Some((item.partie, item.domaine, item.ordre))
  {
    IdentifiantRoundTrip(item.partie, item.domaine, item.ordre);
  }

  /** Reads an answer-map key back into (partie, domaine, ordre). */
  function ParseIdentifiant(id: string): Option<(string, string, int)> {
    match SplitFirst(id, '_')
    case None => None
    case Some((partie, rest)) =>
      match SplitFirst(rest, '_')
      case None => None
      case Some((domaine, digits)) =>
        match ParseInt(digits)
        case None => None
        case Some(ordre) => Some((partie, domaine, ordre))
  }

  lemma IdentifiantRoundTrip(partie: string, domaine: string, ordre: int)
    ensures '_' !in partie && '_' !in domaine ==>
              ParseIdentifiant(FormatIdentifiant(partie, domaine, ordre)) == Some((partie, domaine, ordre))
  {
    if '_' !in partie && '_' !in domaine {
      var fields := [partie, domaine, IntToString(ordre)];
      assert fields[..2][..1] == [partie];
      assert JoinWith(fields[..2], '_') == partie + ['_'] + domaine;
      var tail := domaine + "_" + IntToString(ordre);
      assert FormatIdentifiant(partie, domaine, ordre) == partie + ['_'] + tail;
      SplitFirstOf(partie, '_', tail);
      assert tail == domaine + ['_'] + IntToString(ordre);
      SplitFirstOf(domaine, '_', IntToString(ordre));
      ParseIntToString(ordre);
    }
  }

  /** Items whose codes contain no underscore (every catalogue code) have distinct
      answer keys unless they agree on part, domain and order. */
  lemma IdentifiantInjective(a: ItemIDE, b: ItemIDE)
    requires '_' !in a.partie && '_' !in a.domaine && '_' !in b.partie && '_' !in b.domaine
    requires a.Identifiant() == b.Identifiant()
    ensures a.partie == b.partie && a.domaine == b.domaine && a.ordre == b.ordre
  {
    IdentifiantRoundTrip(a.partie, a.domaine, a.ordre);
    IdentifiantRoundTrip(b.partie, b.domaine, b.ordre);
  }

  // ===========================================================================
  // Patient

  class Patient {
    var nom: string
    var prenom: string
    var email: string
    var dateNaissance: Option<Date>
    var password: Option<string>
    var praticien: User?
    var roles: seq<string>
    var prescriptions: seq<Prescription>

    /** A patient record as the practitioner's form creates it: no password yet. */
    constructor (nom: string, prenom: string, email: string, dateNaissance: Date, praticien: User)
      ensures this.nom == nom && this.prenom == prenom && this.email == email
      ensures this.dateNaissance == Some(dateNaissance) && this.praticien == praticien
      ensures password.None? && roles == [] && prescriptions == []
    {
      this.nom := nom;
      this.prenom := prenom;
      this.email := email;
      this.dateNaissance := Some(dateNaissance);
      this.praticien := praticien;
      password := None;
      roles := [];
      prescriptions := [];
    }

    /** Age in whole months; `iv` is the calendar difference between the birth date
        and the reference date. Zero without a birth date. */
    function AgeEnMois(iv: Interval): (n: int)
      reads this
      ensures dateNaissance.None? ==> n == 0
      ensures dateNaissance.Some? ==> n >= 0 && n / 12 >= iv.y
      ensures dateNaissance.Some? && IsNormalized(iv) ==> n / 12 == iv.y && n % 12 == iv.m
    {
      if dateNaissance.None? then 0 else iv.y * 12 + iv.m
    }

    function AgeFormate(iv: Interval): (r: string)
      reads this
      ensures dateNaissance.None? ==> r == "Non renseigné"
      ensures dateNaissance.Some? && iv.y > 0 ==> r == YearsMonths(iv.y, iv.m)
      ensures dateNaissance.Some? && iv.y == 0 ==> r == Months(iv.m)
    {
      if dateNaissance.None? then "Non renseigné"
      else if iv.y > 0 then YearsMonths(iv.y, iv.m)
      else Months(iv.m)
    }

    /** Whatever was stored, a patient always has exactly the patient role. */
    function Roles(): (r: seq<string>)
      ensures r == ["ROLE_PATIENT"]
    {
      ["ROLE_PATIENT"]
    }

    method SetRoles(r: seq<string>)
      modifies this`roles
      ensures roles == r
      ensures Roles() == ["ROLE_PATIENT"]
    {
      roles := r;
    }

    /** The prescriptions that are not cancelled, in stored order. */
    function PrescriptionsActives(): (r: seq<Prescription>)
      reads this, prescriptions
      ensures forall k :: 0 <= k < |r| ==> r[k] in prescriptions && r[k].statut != Annule
      ensures forall k :: 0 <= k < |prescriptions| && prescriptions[k].statut != Annule ==>
                prescriptions[k] in r
    {
      WithStatut(prescriptions, s => s != Annule)
    }

    /** The prescriptions waiting to start or under way. */
    function PrescriptionsEnCours(): (r: seq<Prescription>)
      reads this, prescriptions
      ensures forall k :: 0 <= k < |r| ==>
                r[k] in prescriptions && r[k].statut in {EnAttente, StatutPrescription.EnCours}
      ensures forall k :: (0 <= k < |prescriptions|
                && prescriptions[k].statut in {EnAttente, StatutPrescription.EnCours}) ==>
                prescriptions[k] in r
    {
      WithStatut(prescriptions, s => s in {EnAttente, StatutPrescription.EnCours})
    }

    /** First name and last name separated by a space, trimmed. */
    function NomComplet(): (r: string)
      reads this
      ensures r == [] || (!IsTrimmed(r[0]) && !IsTrimmed(r[|r| - 1]))
      ensures exists i, j :: 0 <= i <= j <= |prenom + " " + nom| && r == (prenom + " " + nom)[i..j]
                             && (forall k :: 0 <= k < i ==> IsTrimmed((prenom + " " + nom)[k]))
                             && (forall k :: j <= k < |prenom + " " + nom| ==> IsTrimmed((prenom + " " + nom)[k]))
      ensures prenom != [] && nom != [] && !IsTrimmed(prenom[0]) && !IsTrimmed(nom[|nom| - 1])
              ==> r == prenom + " " + nom
    {
      var full := prenom + " " + nom;
      if prenom != [] && nom != [] && !IsTrimmed(prenom[0]) && !IsTrimmed(nom[|nom| - 1]) then
        assert full[0] == prenom[0] && full[|full| - 1] == nom[|nom| - 1];
        TrimKeepsTrimmed(full);
        Trim(full)
      else
        Trim(full)
    }

    method AddPrescription(p: Prescription)
      modifies this`prescriptions, p`patient
      ensures old(p in prescriptions) ==> prescriptions == old(prescriptions) && p.patient == old(p.patient)
      ensures old(p !in prescriptions) ==> prescriptions == old(prescriptions) + [p] && p.patient == this
      ensures p in prescriptions
    {
      if p !in prescriptions {
        prescriptions := prescriptions + [p];
        p.patient := this;
      }
    }
  }

  /** A string with nothing to strip at either end is its own trim. */
  lemma TrimKeepsTrimmed(s: string)
    requires s != [] && !IsTrimmed(s[0]) && !IsTrimmed(s[|s| - 1])
    ensures Trim(s) == s
  {
  }

  /** The prescriptions of `ps` whose status satisfies `wanted`, in order. */
  function WithStatut(ps: seq<Prescription>, wanted: StatutPrescription -> bool): (r: seq<Prescription>)
    reads ps
    ensures forall k :: 0 <= k < |r| ==> r[k] in ps && wanted(r[k].statut)
    ensures forall k :: 0 <= k < |ps| && wanted(ps[k].statut) ==> ps[k] in r
  {
    if ps == [] then []
    else
      var rest := WithStatut(ps[..|ps| - 1], wanted);
      assert forall k :: 0 <= k < |ps| - 1 ==> ps[..|ps| - 1][k] == ps[k];
      rest + (if wanted(ps[|ps| - 1].statut) then [ps[|ps| - 1]] else [])
  }

  // ===========================================================================
  // Prescription

  datatype StatutPrescription = EnAttente | EnCours | Termine | Valide | Annule

  class Prescription {
    var praticien: User?
    var patient: Patient?
    var test: Test?
    var statut: StatutPrescription
    var instructions: Option<string>
    var commentaires: Option<string>
    var dateLimite: Option<Instant>
    var priorite: int
    var consentementRgpd: bool
    var dateConsentement: Option<Instant>
    /** As the mapping loads them: most recently created first. */
    var passations: seq<Passation>
    var bilans: seq<Bilan>

    constructor ()
      ensures statut == EnAttente && priorite == 2 && !consentementRgpd
      ensures dateConsentement.None? && dateLimite.None? && instructions.None? && commentaires.None?
      ensures praticien == null && patient == null && test == null
      ensures passations == [] && bilans == []
    {
      statut := EnAttente;
      priorite := 2;
      consentementRgpd := false;
      dateConsentement := None;
      dateLimite := None;
      instructions := None;
      commentaires := None;
      praticien := null;
      patient := null;
      test := null;
      passations := [];
      bilans := [];
    }

    /** Records consent; the consent date is written the first time consent is given
        and is never overwritten or cleared afterwards. */
    method SetConsentementRgpd(given: bool, now: Instant)
      modifies this`consentementRgpd, this`dateConsentement
      ensures consentementRgpd == given
      ensures old(dateConsentement).Some? ==> dateConsentement == old(dateConsentement)
      ensures old(dateConsentement).None? ==> dateConsentement == (if given then Some(now) else None)
    {
      consentementRgpd := given;
      if given && dateConsentement.None? {
        dateConsentement := Some(now);
      }
    }

    /** The most recent passation, or null. */
    function DernierePassation(): (p: Passation?)
      reads this
      ensures p == null <==> passations == []
      ensures p != null ==> p == passations[0]
    {
      if passations == [] then null else passations[0]
    }

    /** Late: a deadline exists, it has passed, and the prescription is still open. */
    function IsEnRetard(now: Instant): (r: bool)
      reads this
      ensures r ==> dateLimite.Some? && dateLimite.value < now
      ensures statut in {Termine, StatutPrescription.Valide, Annule} ==> !r
      ensures dateLimite.Some? && dateLimite.value < now && statut in {EnAttente, StatutPrescription.EnCours} ==> r
    {
      dateLimite.Some? && dateLimite.value < now && statut !in {Termine, StatutPrescription.Valide, Annule}
    }

    /** Startable: waiting, and consent was given. */
    function PeutEtreDemarree(): (r: bool)
      reads this
      ensures r <==> statut == EnAttente && consentementRgpd
    {
      statut == EnAttente && consentementRgpd
    }

    /** Validatable: finished, and its most recent passation is finished. */
    function PeutEtreValidee(): (r: bool)
      reads this, passations
      ensures r <==> statut == Termine && passations != [] && passations[0].statut == Terminee
    {
      statut == Termine && DernierePassation() != null && DernierePassation().statut == Terminee
    }

    function NiveauPriorite(): (r: string)
      reads this
      ensures priorite == 1 <==> r == "Haute"
      ensures priorite == 3 <==> r == "Basse"
      ensures priorite != 1 && priorite != 3 <==> r == "Normale"
    {
      match priorite
      case 1 => "Haute"
      case 2 => "Normale"
      case 3 => "Basse"
      case _ => "Normale"
    }

    method AddPassation(p: Passation)
      modifies this`passations, p`prescription
      ensures old(p in passations) ==> passations == old(passations) && p.prescription == old(p.prescription)
      ensures old(p !in passations) ==> passations == old(passations) + [p] && p.prescription == this
      ensures p in passations
    {
      if p !in passations {
        passations := passations + [p];
        p.prescription := this;
      }
    }

    method AddBilan(b: Bilan)
      modifies this`bilans, b`prescription
      ensures old(b in bilans) ==> bilans == old(bilans) && b.prescription == old(b.prescription)
      ensures old(b !in bilans) ==> bilans == old(bilans) + [b] && b.prescription == this
      ensures b in bilans
    {
      if b !in bilans {
        bilans := bilans + [b];
        b.prescription := this;
      }
    }
  }

  // ===========================================================================
  // Passation

  datatype StatutPassation = Demarree | EnCours | Suspendue | Terminee | Abandonnee

  /** Optional traceability data taken from the HTTP request. */
  datatype RequestInfo = RequestInfo(clientIp: Option<string>, userAgent: Option<string>)

  /** Length of the hours-and-minutes part of the interval between two instants,
      in minutes: whole days are dropped. Assumes no daylight-saving shift between
      the two instants. */
  function DureeMinutes(debut: Instant, fin: Instant): (m: nat)
    ensures m < 24 * 60
    ensures 0 <= fin - debut < 86400 ==> m == (fin - debut) / 60
  {
    var elapsed := if fin >= debut then fin - debut else debut - fin;
    (elapsed / 60) % (24 * 60)
  }

  /** A session one day longer is recorded with the same duration. */
  lemma DureeDropsDays(debut: Instant, fin: Instant)
    requires fin >= debut
    ensures DureeMinutes(debut, fin + 86400) == DureeMinutes(debut, fin)
  {
    var e := fin - debut;
    assert (e + 86400) / 60 == e / 60 + 1440;
  }

  /** `%02d`-style duration label. */
  function FormatDuree(minutesTotal: int): (r: string)
    ensures minutesTotal >= 60 ==> r == IntToString(minutesTotal / 60) + "h " + Pad2(minutesTotal % 60) + "m"
    ensures 0 <= minutesTotal < 60 ==> r == IntToString(minutesTotal) + "m"
  {
    var heures := TDiv(minutesTotal, 60);
    var minutes := TMod(minutesTotal, 60);
    if heures > 0 then IntToString(heures) + "h " + Pad2(minutes) + "m"
    else IntToString(minutes) + "m"
  }

  /** The keys answered with a given value. */
  function KeysWith(m: map<string, string>, v: string): (ks: set<string>)
    ensures ks <= m.Keys
    ensures forall k :: k in ks <==> k in m && m[k] == v
  {
    set k | k in m && m[k] == v
  }

  class Passation {
    var prescription: Prescription?
    var statut: StatutPassation
    /** Answers keyed by item identifier (`partie_domaine_ordre`). */
    var reponses: map<string, string>
    var scores: Scores
    var progression: int
    var partieCourante: Option<string>
    var ageChronologiqueMois: Option<int>
    var dateNaissance: Option<Date>
    var dateDebut: Option<Instant>
    var dateFin: Option<Instant>
    var dureeMinutes: Option<int>
    var adresseIp: Option<string>
    var userAgent: Option<string>
    var createdAt: Instant
    var updatedAt: Instant

    constructor (now: Instant)
      ensures statut == Demarree && reponses == map[] && scores == [] && progression == 0
      ensures prescription == null && partieCourante.None? && ageChronologiqueMois.None?
      ensures dateNaissance.None? && dateDebut.None? && dateFin.None? && dureeMinutes.None?
      ensures adresseIp.None? && userAgent.None?
      ensures createdAt == now && updatedAt == now
    {
      prescription := null;
      statut := Demarree;
      reponses := map[];
      scores := [];
      progression := 0;
      partieCourante := None;
      ageChronologiqueMois := None;
      dateNaissance := None;
      dateDebut := None;
      dateFin := None;
      dureeMinutes := None;
      adresseIp := None;
      userAgent := None;
      createdAt := now;
      updatedAt := now;
    }

    /** Sets the status. Starting stamps the start date and finishing stamps the end
        date and the duration, each only the first time. */
    method SetStatut(s: StatutPassation, now: Instant)
      modifies this`statut, this`dateDebut, this`dateFin, this`dureeMinutes
      ensures statut == s
      ensures dateDebut == (if s == Demarree && old(dateDebut).None? then Some(now) else old(dateDebut))
      ensures dateFin == (if s == Terminee && old(dateFin).None? then Some(now) else old(dateFin))
      ensures dureeMinutes ==
                (if s == Terminee && old(dateFin).None? && dateDebut.Some?
                 then Some(DureeMinutes(dateDebut.value, now))
                 else old(dureeMinutes))
    {
      statut := s;
      if s == Demarree && dateDebut.None? {
        dateDebut := Some(now);
      }
      if s == Terminee && dateFin.None? {
        dateFin := Some(now);
        CalculerDuree();
      }
    }

    /** Records the duration between the two dates; does nothing while either is unset. */
    method CalculerDuree()
      modifies this`dureeMinutes
      ensures dateDebut.Some? && dateFin.Some? ==>
                dureeMinutes == Some(DureeMinutes(dateDebut.value, dateFin.value))
      ensures dateDebut.None? || dateFin.None? ==> dureeMinutes == old(dureeMinutes)
    {
      if dateDebut.None? || dateFin.None? {
        return;
      }
      dureeMinutes := Some(DureeMinutes(dateDebut.value, dateFin.value));
    }

    /** Stores the progression clamped into [0, 100]. */
    method SetProgression(p: int)
      modifies this`progression
      ensures 0 <= progression <= 100
      ensures 0 <= p <= 100 ==> progression == p
      ensures p < 0 ==> progression == 0
      ensures p > 100 ==> progression == 100
    {
      progression := if p > 100 then 100 else if p < 0 then 0 else p;
    }

    /** Stores the birth date and derives the age in months; `iv` is the calendar
        difference between the birth date and the start date (or now, before the
        passation has started). */
    method SetDateNaissance(d: Date, iv: Interval)
      modifies this`dateNaissance, this`ageChronologiqueMois
      ensures dateNaissance == Some(d)
      ensures ageChronologiqueMois == Some(iv.y * 12 + iv.m)
    {
      dateNaissance := Some(d);
      ageChronologiqueMois := Some(iv.y * 12 + iv.m);
    }

    /** Adds or overwrites one answer; every other answer is left as it was. */
    method AjouterReponse(itemId: string, reponse: string, now: Instant)
      modifies this`reponses, this`updatedAt
      ensures reponses == old(reponses)[itemId := reponse]
      ensures updatedAt == now
    {
      reponses := reponses[itemId := reponse];
      updatedAt := now;
    }

    function Reponse(itemId: string): (r: Option<string>)
      reads this
      ensures r.None? <==> itemId !in reponses
      ensures r.Some? ==> r.value == reponses[itemId]
    {
      if itemId in reponses then Some(reponses[itemId]) else None
    }

    function NombreReponses(): (n: nat)
      reads this
      ensures n == |reponses.Keys|
    {
      |reponses|
    }

    function NombreReponsesOui(): (n: nat)
      reads this
      ensures n == |KeysWith(reponses, "oui")| && n <= NombreReponses()
    {
      SubsetCardinality(KeysWith(reponses, "oui"), reponses.Keys);
      |KeysWith(reponses, "oui")|
    }

    function NombreReponsesNon(): (n: nat)
      reads this
      ensures n == |KeysWith(reponses, "non")| && n <= NombreReponses()
    {
      SubsetCardinality(KeysWith(reponses, "non"), reponses.Keys);
      |KeysWith(reponses, "non")|
    }

    function IsTerminee(): (r: bool)
      reads this
      ensures r <==> statut == Terminee
    {
      statut == Terminee
    }

    function IsAbandonnee(): (r: bool)
      reads this
      ensures r <==> statut == Abandonnee
    {
      statut == Abandonnee
    }

    function IsSuspendue(): (r: bool)
      reads this
      ensures r <==> statut == Suspendue
    {
      statut == Suspendue
    }

    /** Under way: started or in progress, so neither finished, abandoned nor suspended. */
    function IsEnCours(): (r: bool)
      reads this
      ensures r <==> statut == Demarree || statut == StatutPassation.EnCours
      ensures r ==> !IsTerminee() && !IsAbandonnee() && !IsSuspendue()
    {
      statut in {Demarree, StatutPassation.EnCours}
    }

    /** Resumable: in progress or suspended; a passation that has only been started
        is not. */
    function PeutEtreReprise(): (r: bool)
      reads this
      ensures r <==> statut == StatutPassation.EnCours || IsSuspendue()
      ensures statut == Demarree ==> !r
    {
      statut in {StatutPassation.EnCours, Suspendue}
    }

    /** Modifiable: anything but finished or abandoned. */
    function PeutEtreModifiee(): (r: bool)
      reads this
      ensures r <==> !IsTerminee() && !IsAbandonnee()
      ensures PeutEtreReprise() || IsEnCours() ==> r
    {
      statut !in {Terminee, Abandonnee}
    }

    function DureeFormatee(): (r: string)
      reads this
      ensures dureeMinutes.None? ==> r == "Non calculée"
      ensures dureeMinutes.Some? && dureeMinutes.value >= 60 ==>
                r == IntToString(dureeMinutes.value / 60) + "h " + Pad2(dureeMinutes.value % 60) + "m"
      ensures dureeMinutes.Some? && 0 <= dureeMinutes.value < 60 ==> r == IntToString(dureeMinutes.value) + "m"
    {
      if dureeMinutes.None? then "Non calculée" else FormatDuree(dureeMinutes.value)
    }
  }

  lemma {:induction false} SubsetCardinality<T>(a: set<T>, b: set<T>)
    requires a <= b
    ensures |a| <= |b|
    decreases |b|
  {
    if a != {} {
      var x :| x in a;
      SubsetCardinality(a - {x}, b - {x});
    }
  }

  /** Recording an answer adds at most one to the answer count. */
  lemma AnswerCountGrowth(m: map<string, string>, k: string, v: string)
    ensures |m[k := v]| == if k in m then |m| else |m| + 1
  {
    if k in m {
      assert m[k := v].Keys == m.Keys;
    } else {
      assert m[k := v].Keys == m.Keys + {k};
    }
  }

  /** The 'oui' and 'non' answers together never outnumber the answers. */
  lemma OuiNonBound(m: map<string, string>)
    ensures |KeysWith(m, "oui")| + |KeysWith(m, "non")| <= |m|
  {
    var o, n := KeysWith(m, "oui"), KeysWith(m, "non");
    assert o * n == {};
    assert |o + n| == |o| + |n|;
    SubsetCardinality(o + n, m.Keys);
  }

  // ===========================================================================
  // Bilan

  datatype StatutBilan = Genere | EnRevision | Valide | Finalise

  /** A value stored under one key of a domain's entry in the report's scores. */
  datatype Field = IntField(i: int) | RowField(row: Row) | RiskField(risk: Risk)

  /** Reads one key of a stored domain entry: the keys the calculator writes are
      score, parties, seuil_hr, seuil_thr, niveau_risque and age_chronologique. */
  function Champ(e: DomainScore, key: string): (r: Option<Field>)
    ensures key == "score" ==> r == Some(IntField(e.score))
    ensures key == "niveau_risque" ==> r == Some(RiskField(e.niveau))
    ensures key !in {"score", "parties", "seuil_hr", "seuil_thr", "niveau_risque", "age_chronologique"} ==> r.None?
  {
    match key
    case "score" => Some(IntField(e.score))
    case "parties" => Some(RowField(e.parties))
    case "seuil_hr" => Some(IntField(e.seuilHr))
    case "seuil_thr" => Some(IntField(e.seuilThr))
    case "niveau_risque" => Some(RiskField(e.niveau))
    case "age_chronologique" => Some(IntField(e.ageChronologique))
    case _ => None
  }

  /** The tier held by a stored field, if it holds one. */
  function RiskOf(f: Option<Field>): Option<Risk> {
    match f
    case Some(RiskField(risk)) => Some(risk)
    case _ => None
  }

  class Bilan {
    var prescription: Prescription?
    var statut: StatutBilan
    var interpretation: string
    var commentairesPraticien: Option<string>
    var recommandations: Option<string>
    var scoresDetailles: Scores
    var scoreDg: Option<int>
    var niveauRisqueGlobal: Option<Risk>
    var ageDeveloppementMois: Option<int>
    var profilGraphique: seq<ProfileEntry>
    var pointsForts: seq<Point>
    var pointsVigilance: seq<Point>
    var dateGeneration: Instant
    var dateValidation: Option<Instant>
    var version: int
    var createdAt: Instant
    var updatedAt: Instant

    constructor (now: Instant)
      ensures statut == Genere && version == 1 && prescription == null
      ensures scoresDetailles == [] && profilGraphique == [] && pointsForts == [] && pointsVigilance == []
      ensures interpretation == [] && commentairesPraticien.None? && recommandations.None?
      ensures scoreDg.None? && niveauRisqueGlobal.None? && ageDeveloppementMois.None?
      ensures dateValidation.None? && dateGeneration == now && createdAt == now && updatedAt == now
    {
      prescription := null;
      statut := Genere;
      interpretation := [];
      commentairesPraticien := None;
      recommandations := None;
      scoresDetailles := [];
      scoreDg := None;
      niveauRisqueGlobal := None;
      ageDeveloppementMois := None;
      profilGraphique := [];
      pointsForts := [];
      pointsVigilance := [];
      dateGeneration := now;
      dateValidation := None;
      version := 1;
      createdAt := now;
      updatedAt := now;
    }

    /** Sets the status; validating stamps the validation date the first time only. */
    method SetStatut(s: StatutBilan, now: Instant)
      modifies this`statut, this`dateValidation
      ensures statut == s
      ensures dateValidation == ValidationDateAfter(old(dateValidation), s, now)
    {
      statut := s;
      if s == StatutBilan.Valide && dateValidation.None? {
        dateValidation := Some(now);
      }
    }

    /** Validated or finalised. */
    function IsValide(): (r: bool)
      reads this
      ensures r <==> statut == StatutBilan.Valide || statut == Finalise
    {
      statut in {StatutBilan.Valide, Finalise}
    }

    /** Anything but finalised; a validated report can still be changed. */
    function PeutEtreModifie(): (r: bool)
      reads this
      ensures r <==> statut != Finalise
      ensures IsValide() && r <==> statut == StatutBilan.Valide
    {
      statut != Finalise
    }

    /** The stored score of a domain, or None when the domain is not in the report. */
    function ScoreDomaine(code: string): (r: Option<int>)
      reads this
      ensures r.None? <==> Lookup(scoresDetailles, code).None?
      ensures r.Some? ==> r.value == Lookup(scoresDetailles, code).value.score
    {
      match Lookup(scoresDetailles, code)
      case None => None
      case Some(e) => Some(Champ(e, "score").value.i)
    }

    /** Bilan::getNiveauRisqueDomaine as written: it reads the key 'risque', which
        the calculator never writes, so it finds nothing for any domain. */
    function NiveauRisqueDomaineAsWritten(code: string): (r: Option<Risk>)
      reads this
      ensures r.None?
    {
      match Lookup(scoresDetailles, code)
      case None => None
      case Some(e) => RiskOf(Champ(e, "risque"))
    }

    /** The stored risk tier of a domain, read under the key the calculator writes. */
    function NiveauRisqueDomaine(code: string): (r: Option<Risk>)
      reads this
      ensures r.None? <==> Lookup(scoresDetailles, code).None?
      ensures r.Some? ==> r.value == Lookup(scoresDetailles, code).value.niveau
    {
      match Lookup(scoresDetailles, code)
      case None => None
      case Some(e) => RiskOf(Champ(e, "niveau_risque"))
    }

    method AjouterPointFort(domaine: string, description: string)
      modifies this`pointsForts
      ensures pointsForts == old(pointsForts) + [Point(domaine, description)]
    {
      pointsForts := pointsForts + [Point(domaine, description)];
    }

    method AjouterPointVigilance(domaine: string, description: string)
      modifies this`pointsVigilance
      ensures pointsVigilance == old(pointsVigilance) + [Point(domaine, description)]
    {
      pointsVigilance := pointsVigilance + [Point(domaine, description)];
    }

    function AgeDeveloppementFormate(): (r: string)
      reads this
      ensures ageDeveloppementMois.None? ==> r == "Non calculé"
      ensures ageDeveloppementMois.Some? ==> r == FormatAgeDeveloppement(ageDeveloppementMois.value)
    {
      if ageDeveloppementMois.None? then "Non calculé"
      else FormatAgeDeveloppement(ageDeveloppementMois.value)
    }

    function NomStatut(): (r: string)
      reads this
      ensures statut == Genere <==> r == "Généré automatiquement"
      ensures statut == EnRevision <==> r == "En révision"
      ensures statut == StatutBilan.Valide <==> r == "Validé par le praticien"
      ensures statut == Finalise <==> r == "Finalisé"
    {
      match statut
      case Genere => "Généré automatiquement"
      case EnRevision => "En révision"
      case Valide => "Validé par le praticien"
      case Finalise => "Finalisé"
    }

    /** The display name of the global level. The source returns null from this
        string-typed method when no level is stored, so a level is required. */
    function NomNiveauRisque(): (r: string)
      reads this
      requires niveauRisqueGlobal.Some?
      ensures r == Ide.NomNiveauRisque(niveauRisqueGlobal)
      ensures r != "Niveau indéterminé"
    {
      Ide.NomNiveauRisque(niveauRisqueGlobal)
    }
  }

  /** The validation date after a status change: written when validating while
      unset, otherwise kept. */
  function ValidationDateAfter(date: Option<Instant>, s: StatutBilan, now: Instant): (r: Option<Instant>)
    ensures date.Some? ==> r == date
    ensures date.None? ==> (r.Some? <==> s == StatutBilan.Valide)
  {
    if s == StatutBilan.Valide && date.None? then Some(now) else date
  }

  /** Bilan::getAgeDeveloppementFormate for a stored age: years and the months
      remainder, or the remainder alone under a year. */
  function FormatAgeDeveloppement(m: int): (r: string)
    ensures m >= 12 ==> r == YearsMonths(m / 12, m % 12)
    ensures 0 <= m < 12 ==> r == Months(m)
  {
    var annees := TDiv(m, 12);
    var mois := TMod(m, 12);
    if annees > 0 then YearsMonths(annees, mois) else Months(mois)
  }

  // ===========================================================================
  // PatientActivationToken

  class PatientActivationToken {
    var patient: Patient?
    var tokenHash: Option<string>
    var expiresAt: Option<Instant>
    var usedAt: Option<Instant>
    var createdAt: Instant
    var ipCreated: Option<string>
    var userAgentCreated: Option<string>

    constructor (now: Instant)
      ensures usedAt.None? && expiresAt.None? && tokenHash.None? && patient == null
      ensures createdAt == now && ipCreated.None? && userAgentCreated.None?
    {
      patient := null;
      tokenHash := None;
      expiresAt := None;
      usedAt := None;
      createdAt := now;
      ipCreated := None;
      userAgentCreated := None;
    }

    /** Valid: never used and not yet expired. A missing expiry compares as already
        past, as PHP's comparison of null with a date does. */
    function IsValid(now: Instant): (r: bool)
      reads this
      ensures r <==> !IsUsed() && !IsExpired(now)
    {
      usedAt.None? && expiresAt.Some? && expiresAt.value > now
    }

    /** Expired: the expiry is not after now; a missing expiry counts as past. */
    function IsExpired(now: Instant): (r: bool)
      reads this
      ensures r <==> expiresAt.None? || expiresAt.value <= now
    {
      expiresAt.None? || expiresAt.value <= now
    }

    function IsUsed(): (r: bool)
      reads this
      ensures r <==> usedAt.Some?
    {
      usedAt.Some?
    }

    method MarkAsUsed(now: Instant)
      modifies this`usedAt
      ensures usedAt == Some(now)
      ensures IsUsed() && forall t :: !IsValid(t)
    {
      usedAt := Some(now);
    }
  }

  /** A token is valid exactly when it is neither used nor expired. */
  lemma TokenValidity(t: PatientActivationToken, now: Instant)
    ensures t.IsValid(now) <==> !t.IsUsed() && !t.IsExpired(now)
  {
  }
}
