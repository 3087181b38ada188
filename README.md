# IDE screening: scoring, sessions, reports, prescriptions and patient activation

This project models the core of a web application that runs the IDE developmental
screening questionnaire ("Inventaire du Développement de l'Enfant"). A practitioner
prescribes a test to a patient. The patient (or a parent) answers the questions in a
session, called a passation. Once the session is finished, a report, called a bilan, is
generated from the answers. Patients get access to the application through a single-use
activation token sent by e-mail.

The model covers the following, one Dafny module per source component:

- `Ide` (ide.dfy): the test's reference data. It holds the nine domains with their
  names, the six age parts and the DG quotas per part. It also holds the two age
  thresholds (85% and 70% of the age, rounded) and the four risk tiers.
- `Entities` (entities.dfy): the persistent objects, as classes whose fields the
  operations update in place. These are tests and their items, patients,
  prescriptions, passations, bilans and activation tokens.
- `ScoreCalculator` (scoring.dfy): the score calculator. It builds the grid of
  domain × part counts from the "oui" answers of the active items, totals it, and
  assigns each domain a tier. It also writes the textual interpretation and checks
  that the answers are coherent.
- `PassationService` (passation_service.dfy): starting, resuming, suspending,
  abandoning and finishing a session, and saving answers with the progression they
  imply.
- `BilanService` (bilan_service.dfy): generating the versioned report, the
  practitioner's review steps (validate, finalise, comment), the graphic profile and
  the comparison of two reports.
- `TestService` (test_service.dfy): prescribing one or several tests, cancelling and
  validating a prescription, and listing what stops a patient from taking a test.
- `ActivationService` (activation_service.dfy): the activation-token table, issuing a
  token, checking a token, and activating the account. Activation checks the birth
  date and the password policy.

`Base` (base.dfy) holds the shared value types and PHP's operators as the code uses
them. These are integer division truncating toward zero, `%d` and `%02d`, `trim`, and
the filters and counts behind `array_filter` and `count`.

Floating-point factors of the source are exact decimals in the model. `0.85 * age`
rounded is `(85 * age + 50) / 100` for a non-negative age. `ratio > 0.95` becomes
`100 * oui > 95 * total`, and `total < 0.8 * n` becomes `10 * total < 8 * n`. The
clock, the request, the calendar difference between two dates, the hashes and the
random token are parameters of the operations that need them.

## Model

| member | source | states |
|---|---|---|
| Ide.CatalogueShape | src/Entity/TestIDE.php:17-39 | The catalogue has nine domains and six parts, codes and names are distinct, and DG is the ninth domain. |
| Ide.DomainCodeIndex | src/Entity/TestIDE.php:17-27 | Every domain code is found at its own position in the catalogue. |
| Ide.NomDomaine | src/Entity/ItemIDE.php:247-250 | A known domain code maps to one of the catalogue names; an unknown code maps to itself. |
| Ide.NomPartie | src/Entity/ItemIDE.php:255-258 | A known part code maps to one of the catalogue names; an unknown code maps to itself. |
| Ide.NomDomaineInjective | src/Entity/TestIDE.php:17-27 | Two different catalogue domains never share a display name. |
| Ide.NombreTotalItemsDg | src/Entity/TestIDE.php:162-165 | The expected number of DG items is the sum of the per-part quotas 17, 12, 11, 6 and 23. |
| Ide.DgQuotasCoverParts | src/Entity/TestIDE.php:44-50 | Every part that has a DG quota is a catalogue part other than AP. |
| Ide.PartiesOrdonnees | src/Entity/TestIDE.php:170-173 | The ordered parts are the six distinct catalogue parts, each at its catalogue position. |
| Ide.IsDomaineValideAge | src/Entity/TestIDE.php:149-157 | Letters and numbers are refused below 48 months; otherwise a domain is valid exactly when it is in the catalogue. |
| Ide.RoundHundredths | src/Entity/TestIDE.php:141-142 | Rounding x/100 to the nearest integer, halves away from zero, as PHP's round does. |
| Ide.CalculerSeuilsRisque | src/Entity/TestIDE.php:138-144 | The high-risk threshold is 85% of the age and the very-high-risk threshold 70%, each within half a month, with 0 <= very high <= high <= age. |
| Ide.CalculerNiveauRisque | src/Service/ScoreCalculatorService.php:143-157 | Very high risk exactly at or below the 70% threshold. High risk above that and at or below the 85% threshold. Moderate above both and below 95% of the age. Low otherwise. |
| Ide.NiveauRisqueMonotone | src/Service/ScoreCalculatorService.php:143-157 | At a fixed age a higher score never falls into a worse tier. |
| Ide.BoundaryScoresTakeWorseTier | src/Service/ScoreCalculatorService.php:148-151 | A score equal to a threshold takes the worse of the two tiers around it. |
| Ide.TierExtremes | src/Service/ScoreCalculatorService.php:143-157 | A score of zero is always very high risk, and a score above the age is always low risk. |
| Ide.NomNiveauRisque | src/Service/ScoreCalculatorService.php:292-301 | Only an unknown level is named "Niveau indéterminé". |
| Ide.NomNiveauRisqueInjective | src/Service/ScoreCalculatorService.php:292-301 | Different levels have different names. |
| Ide.Couleur | src/Service/BilanService.php:295-304 | Each level's colour is a seven-character hex code; only an unknown level is grey. |
| Ide.CouleurInjective | src/Service/BilanService.php:295-304 | Different levels have different colours. |
| Ide.Lookup | src/Service/ScoreCalculatorService.php:173-174 | A domain's entry is found exactly when the scores hold that domain, and the entry found carries that domain. |
| Entities.Test.constructor | src/Entity/Test.php:63-68 | A new test is active, with no prescriptions and no items. |
| Entities.Test.IsCompatibleAvecAge | src/Entity/Test.php:190-193 | An age is compatible exactly when it lies within both bounds, inclusive; never when the bounds are crossed. |
| Entities.Test.NomComplet | src/Entity/Test.php:198-201 | The full name is the name, " (", the version and ")". |
| Entities.Test.AddPrescription | src/Entity/Test.php:165-173 | A prescription is added once and linked back to the test; adding it again changes nothing. |
| Entities.Test.RemovePrescription | src/Entity/Test.php:175-185 | Removes the prescription; its test is cleared only if it was in the list and still pointed at this test. |
| Entities.Test.AddItem | src/Entity/TestIDE.php:83-91 | An item is added once and linked back to the test; adding it again changes nothing. |
| Entities.Test.RemoveItem | src/Entity/TestIDE.php:93-103 | Removes the item; its test is cleared only if it was in the list and still pointed at this test. |
| Entities.Test.ItemsParPartie | src/Entity/TestIDE.php:108-113 | Exactly the test's items of the given part. |
| Entities.Test.ItemsParDomaine | src/Entity/TestIDE.php:118-123 | Exactly the test's items of the given domain. |
| Entities.Test.ItemsDg | src/Entity/TestIDE.php:128-133 | Exactly the test's items that count for general development. |
| Entities.ItemIDE.constructor | src/Entity/ItemIDE.php:83-87 | A new item is active, does not count for DG and has no age bounds. |
| Entities.ItemIDE.Configure | src/Entity/ItemIDE.php:117-218 | An item configured with every field holds exactly those values. |
| Entities.ItemIDE.IsApplicableAge | src/Entity/ItemIDE.php:263-274 | An age is applicable exactly when it is within each bound that is set, both inclusive. |
| Entities.ItemIDE.NomDomaine | src/Entity/ItemIDE.php:247-250 | The item's domain name comes from the catalogue, or is the code when the catalogue lacks it. |
| Entities.ItemIDE.NomPartie | src/Entity/ItemIDE.php:255-258 | The item's part name comes from the catalogue, or is the code when the catalogue lacks it. |
| Entities.IdentifiantRoundTrip | src/Entity/ItemIDE.php:279-282 | The answer key `partie_domaine_ordre` reads back as its three fields when the codes contain no underscore. |
| Entities.IdentifiantLisible | src/Entity/ItemIDE.php:279-282 | This item's answer key reads back as its part, domain and order when the codes contain no underscore. |
| Entities.IdentifiantInjective | src/Entity/ItemIDE.php:279-282 | Two items with the same answer key have the same part, domain and order. |
| Entities.Patient.constructor | src/Entity/Patient.php:59-62 | A new patient has no password, no stored roles and no prescriptions. |
| Entities.Patient.AgeEnMois | src/Entity/Patient.php:226-236 | Zero without a birth date; otherwise whole years times twelve plus months of the calendar difference. |
| Entities.Patient.AgeFormate | src/Entity/Patient.php:241-255 | "Non renseigné" without a birth date; years and months from one year on; months alone before. |
| Entities.Patient.Roles | src/Entity/Patient.php:143-146 | A patient's roles are always exactly the patient role. |
| Entities.Patient.SetRoles | src/Entity/Patient.php:148-152 | Stores the given roles, yet the reported roles stay the patient role. |
| Entities.Patient.PrescriptionsActives | src/Entity/Patient.php:203-209 | Exactly the patient's prescriptions that are not cancelled. |
| Entities.Patient.PrescriptionsEnCours | src/Entity/Patient.php:213-222 | Exactly the patient's prescriptions that are waiting or under way. |
| Entities.Patient.NomComplet | src/Entity/Patient.php:260-263 | The result is "prenom nom" with the leading and trailing whitespace removed, and nothing else: a slice of it that drops only whitespace and keeps no whitespace at either end. It is "prenom nom" itself when both are already trimmed. |
| Entities.Patient.AddPrescription | src/Entity/Patient.php:178-186 | A prescription is added once and linked back to the patient. |
| Entities.TrimKeepsTrimmed | src/Entity/Patient.php:260-263 | Trimming a string that has nothing to strip returns it unchanged. |
| Entities.Prescription.constructor | src/Entity/Prescription.php:109-115 | A new prescription is waiting, priority 2, without consent, deadline, passations or bilans. |
| Entities.Prescription.SetConsentementRgpd | src/Entity/Prescription.php:229-238 | Records consent; the consent date is set the first time consent is given and never overwritten. |
| Entities.Prescription.DernierePassation | src/Entity/Prescription.php:347-350 | Null exactly when there is no passation; otherwise the most recent one. |
| Entities.Prescription.IsEnRetard | src/Entity/Prescription.php:363-368 | Late exactly when a deadline is set and past and the prescription is neither finished, validated nor cancelled. |
| Entities.Prescription.PeutEtreDemarree | src/Entity/Prescription.php:373-376 | Can start exactly when waiting and consent is given. |
| Entities.Prescription.PeutEtreValidee | src/Entity/Prescription.php:381-384 | Can be validated exactly when finished and its most recent passation is finished. |
| Entities.Prescription.NiveauPriorite | src/Entity/Prescription.php:389-397 | Priority 1 is "Haute", 3 is "Basse", any other value "Normale". |
| Entities.Prescription.AddPassation | src/Entity/Prescription.php:284-292 | A passation is added once and linked back to the prescription. |
| Entities.Prescription.AddBilan | src/Entity/Prescription.php:314-322 | A bilan is added once and linked back to the prescription. |
| Entities.DureeMinutes | src/Entity/Passation.php:440-448 | The duration keeps only the hours and minutes of the interval, so it is below one day and exact for sessions shorter than a day. |
| Entities.DureeDropsDays | src/Entity/Passation.php:446-447 | A session one day longer is recorded with the same duration. |
| Entities.FormatDuree | src/Entity/Passation.php:477-491 | From one hour on the label is "Hh MMm" with two-digit minutes; below an hour, "Mm". |
| Entities.Passation.constructor | src/Entity/Passation.php:123-129 | A new passation has just started with no answers, no dates and no age, created now. |
| Entities.Passation.SetStatut | src/Entity/Passation.php:159-174 | Stores the status. Starting stamps the start date if unset. Finishing stamps the end date if unset and records the duration. |
| Entities.Passation.CalculerDuree | src/Entity/Passation.php:440-448 | Records the duration between the two dates, and does nothing while either is unset. |
| Entities.Passation.SetProgression | src/Entity/Passation.php:205-210 | The stored progression is the given one clamped into [0, 100]. |
| Entities.Passation.SetDateNaissance | src/Entity/Passation.php:241-249 | Stores the birth date and the age in months derived from it. |
| Entities.Passation.AjouterReponse | src/Entity/Passation.php:402-412 | Adds or overwrites exactly one answer, and stamps the update time. |
| Entities.Passation.IsTerminee | src/Entity/Passation.php:362-365 | Holds exactly on the finished status. |
| Entities.Passation.IsAbandonnee | src/Entity/Passation.php:370-373 | Holds exactly on the abandoned status. |
| Entities.Passation.IsSuspendue | src/Entity/Passation.php:378-381 | Holds exactly on the suspended status. |
| Entities.Passation.IsEnCours | src/Entity/Passation.php:386-389 | Holds exactly when started or in progress, and then the passation is neither finished, abandoned nor suspended. |
| Entities.Passation.PeutEtreReprise | src/Entity/Passation.php:394-397 | Can resume exactly when in progress or suspended; a just-started passation cannot. |
| Entities.Passation.PeutEtreModifiee | src/Entity/Passation.php:504-507 | Can change exactly when neither finished nor abandoned; a running or resumable passation can. |
| Entities.Passation.Reponse | src/Entity/Passation.php:417-420 | The stored answer for an item, or None when it was not answered. |
| Entities.Passation.NombreReponses | src/Entity/Passation.php:453-456 | The number of answered items. |
| Entities.Passation.NombreReponsesOui | src/Entity/Passation.php:461-464 | The number of items answered "oui", never more than the answers. |
| Entities.Passation.NombreReponsesNon | src/Entity/Passation.php:469-472 | The number of items answered "non", never more than the answers. |
| Entities.Passation.DureeFormatee | src/Entity/Passation.php:477-491 | "Non calculée" without a duration, otherwise the duration label. |
| Entities.AnswerCountGrowth | src/Entity/Passation.php:402-412 | Recording an answer adds one to the count for a new item, and nothing for an item already answered. |
| Entities.OuiNonBound | src/Entity/Passation.php:461-472 | The "oui" and "non" answers together never outnumber the answers. |
| Entities.Champ | src/Service/ScoreCalculatorService.php:127-134 | A domain entry holds its score and tier under the calculator's keys, and nothing under any other key. |
| Entities.Bilan.constructor | src/Entity/Bilan.php:147-156 | A new bilan is generated, version 1, empty, and dated now. |
| Entities.Bilan.SetStatut | src/Entity/Bilan.php:186-196 | Stores the status; the validation date is written when validating, the first time only. |
| Entities.ValidationDateAfter | src/Entity/Bilan.php:190-193 | A validation date once set is kept; an unset one is set exactly by a validation. |
| Entities.Bilan.IsValide | src/Entity/Bilan.php:409-412 | Validated exactly when validated or finalised. |
| Entities.Bilan.PeutEtreModifie | src/Entity/Bilan.php:417-420 | Can change exactly when not finalised; a validated report that can change is one validated but not finalised. |
| Entities.Bilan.ScoreDomaine | src/Entity/Bilan.php:425-428 | The stored score of a domain, and None exactly when the domain is not in the report. |
| Entities.Bilan.NiveauRisqueDomaineAsWritten | src/Entity/Bilan.php:433-436 | As written, the lookup reads a key the calculator never writes, so it always yields nothing. |
| Entities.Bilan.NiveauRisqueDomaine | src/Entity/Bilan.php:433-436 | The stored tier of a domain, and None exactly when the domain is not in the report. |
| Entities.Bilan.AjouterPointFort | src/Entity/Bilan.php:441-453 | Appends exactly one strength, and keeps the earlier ones. |
| Entities.Bilan.AjouterPointVigilance | src/Entity/Bilan.php:458-470 | Appends exactly one watch-point, and keeps the earlier ones. |
| Entities.Bilan.AgeDeveloppementFormate | src/Entity/Bilan.php:475-489 | "Non calculé" without an estimated age, otherwise years and months. |
| Entities.FormatAgeDeveloppement | src/Entity/Bilan.php:479-488 | From twelve months on, years and remaining months; below, months alone. |
| Entities.Bilan.NomStatut | src/Entity/Bilan.php:393-396 | Each of the four statuses has its own label: "Généré automatiquement", "En révision", "Validé par le praticien" and "Finalisé", each exactly on its status. |
| Entities.Bilan.NomNiveauRisque | src/Entity/Bilan.php:401-404 | A stored global level has its tier's name, never the undetermined one. |
| Entities.PatientActivationToken.constructor | src/Entity/PatientActivationToken.php:42-45 | A new token is dated now and has no patient, hash, expiry or use. |
| Entities.PatientActivationToken.IsValid | src/Entity/PatientActivationToken.php:132-136 | Valid exactly when unused and not expired. |
| Entities.PatientActivationToken.IsExpired | src/Entity/PatientActivationToken.php:141-144 | Expired exactly when the expiry is unset or not after now. |
| Entities.PatientActivationToken.IsUsed | src/Entity/PatientActivationToken.php:149-152 | Used exactly when a use date is recorded. |
| Entities.PatientActivationToken.MarkAsUsed | src/Entity/PatientActivationToken.php:157-161 | The token is used now and is no longer valid at any time. |
| Entities.TokenValidity | src/Entity/PatientActivationToken.php:132-152 | A token is valid exactly when it is neither used nor expired. |
| ScoreCalculator.Bump | src/Service/ScoreCalculatorService.php:53-60 | Incrementing a part adds one to the row's total and to that part, which starts from 1 when absent. |
| ScoreCalculator.BumpOther | src/Service/ScoreCalculatorService.php:53-60 | Incrementing one part leaves every other part unchanged. |
| ScoreCalculator.ZeroRow | src/Service/ScoreCalculatorService.php:89-91 | An initial row holds zero for each part and nothing else. |
| ScoreCalculator.InitialGrid | src/Service/ScoreCalculatorService.php:80-95 | The initial grid has one row per catalogue domain, each holding zero for every part. |
| ScoreCalculator.InitialiserScores | src/Service/ScoreCalculatorService.php:80-95 | Builds the initial grid by its nested loops. |
| ScoreCalculator.InitialiserLigne | src/Service/ScoreCalculatorService.php:89-91 | Builds one zero row by its loop. |
| ScoreCalculator.StepDomainGet | src/Service/ScoreCalculatorService.php:44-56 | One item adds one to its own domain's cell for its part, only when answered "oui" and the cell exists. |
| ScoreCalculator.StepDgGet | src/Service/ScoreCalculatorService.php:44-61 | One item adds to the DG cell of its part once for a DG-domain item and once more when it counts for DG. A missing DG cell is created by the unguarded increment. |
| ScoreCalculator.TallyShape | src/Service/ScoreCalculatorService.php:41-62 | After tallying, a domain row has exactly the six parts, and the DG row has at least them. |
| ScoreCalculator.ScoreItems | src/Service/ScoreCalculatorService.php:44-62 | The loop over the items produces the tally of the answers. |
| ScoreCalculator.CellCount | src/Service/ScoreCalculatorService.php:44-56 | A domain's cell for a part counts that domain's active items of that part answered "oui". |
| ScoreCalculator.DgCellCount | src/Service/ScoreCalculatorService.php:44-61 | The DG cell for a part counts the DG-domain items plus the DG-counting items of that part answered "oui". |
| ScoreCalculator.DomainTotalCount | src/Service/ScoreCalculatorService.php:100-114 | A domain's total is the number of its items answered "oui". |
| ScoreCalculator.DgTotalBounds | src/Service/ScoreCalculatorService.php:53-61 | The DG total is at least the DG-counting "oui" items, and at most those plus the DG-domain items and the items of unknown parts. |
| ScoreCalculator.DgTotalCount | src/Service/ScoreCalculatorService.php:53-61 | With only catalogue parts, the DG total is the DG-domain items plus the DG-counting items answered "oui". |
| ScoreCalculator.ExtraDgParts | src/Service/ScoreCalculatorService.php:58-60 | A non-catalogue part appears in the DG row only because a DG-counting item of that part was answered "oui". |
| ScoreCalculator.OnlyOuiMatters | src/Service/ScoreCalculatorService.php:46-48 | Answers other than "oui", or missing answers, do not change the tally. |
| ScoreCalculator.NoOuiNoScore | src/Service/ScoreCalculatorService.php:44-62 | Without any "oui" answer the grid stays the initial one. |
| ScoreCalculator.Totaux | src/Service/ScoreCalculatorService.php:100-114 | Each domain's total is the sum of its parts, which are kept as they are. |
| ScoreCalculator.CalculerTotaux | src/Service/ScoreCalculatorService.php:100-114 | The loop produces the totals. |
| ScoreCalculator.NiveauxRisque | src/Service/ScoreCalculatorService.php:119-138 | Each domain entry carries its total, its parts, both thresholds, the age and its tier. |
| ScoreCalculator.DeterminerNiveauxRisque | src/Service/ScoreCalculatorService.php:119-138 | The loop produces the entries with their tiers. |
| ScoreCalculator.ActiveItems | src/Service/ScoreCalculatorService.php:38 | Exactly the test's active items. |
| ScoreCalculator.CalculerScoresIde | src/Service/ScoreCalculatorService.php:23-75 | A non-IDE test and an empty answer set are refused. Otherwise the result is the scored, totalled and tiered grid of the active items. |
| ScoreCalculator.ScoresShape | src/Service/ScoreCalculatorService.php:64-74 | Every domain of the result carries the tally of its row, its sum, the thresholds of the age, the age and its tier. |
| ScoreCalculator.MoreOuiNeverWorse | src/Service/ScoreCalculatorService.php:44-157 | For every non-DG domain, more "oui" answers never lower the domain's score and never worsen its tier. |
| ScoreCalculator.CatalogueName | src/Service/ScoreCalculatorService.php:191 | A catalogue domain's name; an unknown code reads as empty. |
| ScoreCalculator.FormaterAge | src/Service/ScoreCalculatorService.php:306-316 | From twelve months on, years and remaining months; below, months alone. |
| ScoreCalculator.AgeFormattersAgree | src/Service/ScoreCalculatorService.php:306-316 | The calculator's, the report's and the patient's age labels agree on the same age. |
| ScoreCalculator.AnalyseEntriesSnoc | src/Service/ScoreCalculatorService.php:185-196 | The analysis walks the fixed domain order, skipping domains missing from the scores and DG. |
| ScoreCalculator.DomainLinesSnoc | src/Service/ScoreCalculatorService.php:195 | One analysis line per entry, in order. |
| ScoreCalculator.PointsForts | src/Service/ScoreCalculatorService.php:230-244 | One line per non-DG domain at low risk: each such domain has its line, and every line is that of such a domain. |
| ScoreCalculator.PointsVigilance | src/Service/ScoreCalculatorService.php:249-264 | One line per non-DG domain at high or very high risk: each such domain has its line, and every line is that of such a domain. |
| ScoreCalculator.IdentifierPointsForts | src/Service/ScoreCalculatorService.php:230-244 | The loop produces the strengths. |
| ScoreCalculator.IdentifierPointsVigilance | src/Service/ScoreCalculatorService.php:249-264 | The loop produces the watch-points. |
| ScoreCalculator.Bullets | src/Service/ScoreCalculatorService.php:206-208 | Each point becomes one bulleted line. |
| ScoreCalculator.Section | src/Service/ScoreCalculatorService.php:204-218 | A section is omitted exactly when it has no points. |
| ScoreCalculator.GenererInterpretation | src/Service/ScoreCalculatorService.php:162-225 | The text is the interpretation's lines joined by line feeds. |
| ScoreCalculator.AnalyserDomaines | src/Service/ScoreCalculatorService.php:183-196 | The loop produces the per-domain analysis lines. |
| ScoreCalculator.AppendSection | src/Service/ScoreCalculatorService.php:204-218 | The loop appends the section to the lines. |
| ScoreCalculator.InterpretationWithoutDg | src/Service/ScoreCalculatorService.php:173-174 | Without a DG entry the headline score is 0 and the recommendation is the default one. |
| ScoreCalculator.OrderedDomains | src/Service/ScoreCalculatorService.php:183 | The analysis order is the catalogue order without DG. |
| ScoreCalculator.AnalyseInOrder | src/Service/ScoreCalculatorService.php:183-196 | On calculator output, the analysis lists the eight non-DG domains in catalogue order. |
| ScoreCalculator.CoherenceOf | src/Service/ScoreCalculatorService.php:321-367 | Valid exactly when there is no error. The error is raised exactly when the answers fall below 80% of the applicable items. The warnings are too few "non" above 95% "oui", or too few "oui" below 5%. The statistics hold the total, the "oui" and "non" counts and the "oui" ratio. |
| ScoreCalculator.RatioOuiDixiemes | src/Service/ScoreCalculatorService.php:364 | The "oui" ratio in tenths of a percent, 0 without answers. Otherwise it is 1000·oui/total rounded to the nearest integer, halves up, and at most 1000. |
| ScoreCalculator.RoundedQuotient | src/Service/ScoreCalculatorService.php:364 | The quotient bounds that the rounding of the ratio rests on. |
| ScoreCalculator.CoherenceWarningsExclusive | src/Service/ScoreCalculatorService.php:332-340 | At most one warning, and none without answers. |
| ScoreCalculator.ApplicableItems | src/Service/ScoreCalculatorService.php:348 | Exactly the active items of the test applicable at the age: every returned item is one, and every one is returned. |
| ScoreCalculator.ValiderCoherenceReponses | src/Service/ScoreCalculatorService.php:321-367 | The check computes the coherence of the session's counts, against the applicable items for an IDE test. Its statistics include the rounded "oui" ratio. |
| PassationService.FinishedIsFinal | src/Service/PassationService.php:94-177 | A finished passation stays finished whatever the service is asked. |
| PassationService.NeverResumedAfterStart | src/Service/PassationService.php:66-107 | From the started status no request ever reaches "in progress" or "suspended". |
| PassationService.StaysOutOfProgress | src/Service/PassationService.php:66-107 | Started, abandoned and finished are closed under every request. |
| PassationService.EnCoursParmi | src/Service/PassationService.php:182-197 | The first passation that is started, in progress or suspended, and null exactly when there is none. |
| PassationService.GetPassationEnCours | src/Service/PassationService.php:182-197 | The loop finds that passation. |
| PassationService.Obstacles | src/Service/PassationService.php:283-306 | One obstacle per failed condition (consent, passation under way, deadline), in the source's order. |
| PassationService.PeutDemarrerPassation | src/Service/PassationService.php:283-306 | Lists the obstacles; starting is possible exactly when there are none. |
| PassationService.ObstaclesAgreeWithStart | src/Service/PassationService.php:26-61 | When starting is accepted only the deadline can be reported, and a waiting prescription without obstacles can be started. |
| PassationService.NouvellePassation | src/Service/PassationService.php:42-52 | The new passation is linked to the prescription, started now, with the birth date, the age in months, the request data and no answers. |
| PassationService.DemarrerPassation | src/Service/PassationService.php:26-61 | Refuses a prescription that cannot start or already has a session under way, changing nothing. Otherwise creates a started passation with its dates, age and request data, and puts the prescription under way. |
| PassationService.NoSecondStart | src/Service/PassationService.php:31-33 | A prescription under way can never be started again. |
| PassationService.ReprendrePassation | src/Service/PassationService.php:66-76 | Resumes a passation in progress or suspended, and refuses any other. |
| PassationService.SuspendrePassation | src/Service/PassationService.php:81-89 | Suspends a passation in progress, and refuses any other. |
| PassationService.AbandonnerPassation | src/Service/PassationService.php:94-107 | Abandons any unfinished passation and puts its prescription back to waiting; a finished one is refused. |
| PassationService.TerminerPassation | src/Service/PassationService.php:163-177 | Finishes an unfinished passation at 100% with its end date and duration, and marks the prescription finished; a finished one is refused unchanged. |
| PassationService.Progression | src/Service/PassationService.php:218-232 | The progression is half the answers rounded up, capped at 100. |
| PassationService.ProgressionMonotone | src/Service/PassationService.php:218-232 | More answers never lower the progression. |
| PassationService.CalculerProgression | src/Service/PassationService.php:218-232 | Stores the progression of the current answers. |
| PassationService.SauvegarderReponse | src/Service/PassationService.php:112-132 | Refuses an answer other than "oui" or "non", changing nothing. Otherwise stores it, the current part if given, and the new progression. |
| PassationService.AppliquerEffet | src/Service/PassationService.php:145-153 | After a batch, a key holds its last value in the batch, or its old value if the batch skips it. |
| PassationService.PremiereInvalide | src/Service/PassationService.php:145-150 | The first answer of a batch that is neither "oui" nor "non", if any. |
| PassationService.PremiereInvalideAt | src/Service/PassationService.php:145-150 | The first invalid answer is the one all earlier answers are valid before. |
| PassationService.ReponsesRestentValides | src/Service/PassationService.php:137-158 | Saving only valid answers keeps every stored answer "oui" or "non". |
| PassationService.SauvegarderReponses | src/Service/PassationService.php:137-158 | Stores answers up to the first invalid one and stops there with its key. A fully valid batch also stores the part and the progression. |
| BilanService.Versions | src/Service/BilanService.php:35-41 | The versions of the prescription's reports, in order. |
| BilanService.DerniereVersion | src/Service/BilanService.php:35-38 | The highest version, and None exactly when there is no report. |
| BilanService.ProchaineVersion | src/Service/BilanService.php:35-41 | Version 1 for the first report, otherwise one more than the highest existing version. |
| BilanService.NouvelleVersionDistincte | src/Service/BilanService.php:35-41 | The new version differs from all earlier ones and becomes the latest. |
| BilanService.NiveauRisqueGlobal | src/Service/BilanService.php:224-234 | The global level is the DG tier, or moderate when DG is missing. |
| BilanService.EstimerAgeDeveloppement | src/Service/BilanService.php:239-244 | The estimated age is the DG score capped at six months above the age. |
| BilanService.HeadlineIsDg | src/Service/BilanService.php:56-60 | On calculator output the headline score and level are those of the DG row. |
| BilanService.PointsFortsDe | src/Service/BilanService.php:249-266 | One strength per non-DG domain at low risk. |
| BilanService.PointsVigilanceDe | src/Service/BilanService.php:249-266 | One watch-point per non-DG domain at high or very high risk. |
| BilanService.PointsExacts | src/Service/BilanService.php:249-266 | Every strength and watch-point comes from a qualifying domain, and every qualifying domain gives one. |
| BilanService.PointsPartition | src/Service/BilanService.php:249-266 | Each non-DG domain is a strength, a watch-point or moderate, and only one of them. |
| BilanService.ProfilDe | src/Service/BilanService.php:271-290 | One profile bar per non-DG domain. |
| BilanService.ProfilColore | src/Service/BilanService.php:271-290 | Every bar is a non-DG domain coloured by its tier, never grey. |
| BilanService.ProfilInOrder | src/Service/BilanService.php:271-290 | On calculator output the profile has the eight domains in catalogue order. |
| BilanService.AvecAvertissements | src/Service/BilanService.php:81-85 | Without warnings the interpretation is unchanged; with them it is extended, never cut. |
| BilanService.IdentifierPointsFortsEtVigilance | src/Service/BilanService.php:249-266 | Appends the strengths and the watch-points to the report. |
| BilanService.GenererProfilGraphique | src/Service/BilanService.php:271-290 | The loop produces the profile. |
| BilanService.PointsAgreeWithInterpretation | src/Service/BilanService.php:249-266 | The report's strengths and watch-points match the interpretation's lines one for one, in order: the k-th point and the k-th line come from the same domain score. |
| BilanService.RedigerInterpretation | src/Service/BilanService.php:67-85 | Writes the interpretation and appends the warnings, if any. |
| BilanService.Enregistrer | src/Service/BilanService.php:87-88 | The stored report becomes the prescription's most recent one. |
| BilanService.NouveauBilan | src/Service/BilanService.php:50-78 | The new report holds the prescription, version, scores, headline, estimated age, interpretation, points and profile. |
| BilanService.CreerBilan | src/Service/BilanService.php:50-88 | Creates that report and stores it as the prescription's latest. |
| BilanService.GenererBilanAutomatique | src/Service/BilanService.php:26-91 | Succeeds exactly when the session is finished, the test is IDE and there are answers. It refuses an unfinished session, a non-IDE test or no answers, storing nothing. Otherwise it stores a new report of the next version, built from the calculator's scores and the coherence warnings. |
| BilanService.FinaliseIsFinal | src/Service/BilanService.php:96-161 | A finalised report never changes again. |
| BilanService.ValidationDateKept | src/Service/BilanService.php:96-161 | A validation date, once set, survives every later review step. |
| BilanService.ValidatedReportsAreDated | src/Service/BilanService.php:96-161 | A validated or finalised report always has a validation date. |
| BilanService.ValiderBilan | src/Service/BilanService.php:96-115 | Refuses another practitioner's or a finalised report unchanged; otherwise validates it and stores any comment. |
| BilanService.FinaliserBilan | src/Service/BilanService.php:120-133 | Refuses another practitioner's or an unvalidated report unchanged; otherwise finalises it. |
| BilanService.AjouterCommentaires | src/Service/BilanService.php:138-161 | Refuses another practitioner's or a finalised report unchanged; otherwise stores the comments and puts the report under revision. |
| BilanService.EntreeEvolution | src/Service/BilanService.php:379-388 | A compared domain's entry holds its score in each report, their difference and its name. |
| BilanService.Evolutions | src/Service/BilanService.php:376-388 | Every per-domain evolution is the entry of a non-DG domain of the first report that the second holds, and each such domain has its entry; never more entries than domains. |
| BilanService.ListesCaracterisees | src/Service/BilanService.php:376-394 | A domain is listed as improved or worsened exactly when its score moved by more than two points that way. |
| BilanService.ComparaisonAntisymetrique | src/Service/BilanService.php:360-398 | Comparing in the other order swaps the improved and worsened lists. |
| BilanService.JamaisLesDeux | src/Service/BilanService.php:390-394 | No domain is both improved and worsened. |
| BilanService.ComparerBilans | src/Service/BilanService.php:360-398 | Refuses two reports of different patients; otherwise gives the change in DG score, the per-domain evolutions and the improved and worsened domains. |
| TestService.Refus | src/Service/TestService.php:47-65 | No refusal exactly when the patient is the practitioner's and, for an IDE test, the age is within the test's bounds; ownership is checked first. |
| TestService.PrescrireTest | src/Service/TestService.php:39-80 | Fails with the refusal, or creates a waiting prescription holding the given practitioner, patient, test, instructions, deadline and priority. |
| TestService.PremierRefus | src/Service/TestService.php:95-104 | The position of the first test refused, or the number of tests. |
| TestService.PremierRefusUnique | src/Service/TestService.php:95-104 | Any position with all earlier tests accepted and itself refused, or the end, is the first refusal. |
| TestService.PrescrirePlusieursTests | src/Service/TestService.php:85-107 | Creates one distinct prescription per test up to the first refusal, which is reported; all are created when none is refused. |
| TestService.Apres | src/Service/TestService.php:112-145 | Cancelling is refused only for a validated prescription; validating is allowed only for a finished one whose last passation is finished. |
| TestService.StatutsDefinitifs | src/Service/TestService.php:112-145 | Once validated or cancelled, a prescription keeps its status whatever is asked. |
| TestService.ValiderSsiPeutEtreValidee | src/Entity/Prescription.php:381-384 | The validation rule agrees with the prescription's own check that it can be validated. |
| TestService.AnnulerPrescription | src/Service/TestService.php:112-126 | Refuses another practitioner's or a validated prescription unchanged; otherwise cancels it. |
| TestService.ValiderPrescription | src/Service/TestService.php:131-145 | Refuses another practitioner's or an unvalidatable prescription unchanged; otherwise validates it. |
| TestService.Empechements | src/Service/TestService.php:195-210 | A reason is listed exactly when its condition fails (consent, deadline, not startable), and there are at most three. |
| TestService.PeutPasserTest | src/Service/TestService.php:193-216 | Lists the reasons; the test can be taken exactly when the prescription is waiting, with consent and not late. |
| TestService.ConsentementManquantDoublement | src/Service/TestService.php:197-210 | Missing consent is always reported twice: first as such, last as a prescription that cannot start. |
| ActivationService.FindValid | src/Repository/PatientActivationTokenRepository.php:23-33 | The token found has the hash and is valid now; null exactly when no stored token does. |
| ActivationService.UsedHashFindsNothing | src/Service/PatientActivationService.php:113 | Once its token is used, a unique hash never finds a valid token again. |
| ActivationService.AppendKeepsHashesUniques | src/Entity/PatientActivationToken.php:24-25 | Storing a token with a new hash keeps hashes unique. |
| ActivationService.Restants | src/Repository/PatientActivationTokenRepository.php:54-62 | The tokens left are exactly those not expired before now. |
| ActivationService.ValidSurvivesCleaning | src/Service/PatientActivationService.php:160-169 | Cleaning never removes a token that is still valid. |
| ActivationService.TokenRepository.InvalidateAllTokensForPatient | src/Repository/PatientActivationTokenRepository.php:38-49 | Marks every unused token of the patient as used now, and changes nothing else. |
| ActivationService.TokenRepository.DeleteExpiredTokens | src/Repository/PatientActivationTokenRepository.php:54-62 | Removes the expired tokens and returns how many went. |
| ActivationService.TokenRepository.Enregistrer | src/Service/PatientActivationService.php:48-49 | Stores the token unless its hash is already stored, keeping the table's constraints. |
| ActivationService.ValidatePassword | src/Service/PatientActivationService.php:151-155 | An accepted password has at least twelve characters and no whitespace. |
| ActivationService.AsWrittenIsPolicyWithoutFinalNewline | src/Service/PatientActivationService.php:151-155 | Unless the password ends with a line feed, the pattern as written accepts exactly the passwords of the policy. |
| ActivationService.PolicyImpliesAsWritten | src/Service/PatientActivationService.php:151-155 | Every password of the policy passes the check as written. |
| ActivationService.TrailingNewlineAccepted | src/Service/PatientActivationService.php:151-155 | "Abcdefghijk1" followed by a line feed passes the check as written but breaks the policy. |
| ActivationService.FormatAnnee | src/Service/PatientActivationService.php:141-145 | A year from 0 to 9999 is written as four digits. |
| ActivationService.LireFormatYmd | src/Service/PatientActivationService.php:141-145 | A calendar date written as `Y-m-d` reads back as itself. |
| ActivationService.VerifyDateIsEquality | src/Service/PatientActivationService.php:133-146 | On calendar dates, the birth-date check holds exactly when the two dates are equal. |
| ActivationService.ValidateActivationToken | src/Service/PatientActivationService.php:68-79 | The stored token with that hash that is valid now, or null exactly when there is none. |
| ActivationService.ActivatePatient | src/Service/PatientActivationService.php:84-127 | Succeeds exactly for a valid token, the right birth date and a policy-conforming password. Success sets the password and uses up the token, which never activates again. Failure changes nothing. |
| ActivationService.GenerateActivationToken | src/Service/PatientActivationService.php:31-63 | Marks the patient's unused tokens used, then stores a token valid for 24 hours carrying the request data. A hash already stored makes it fail after the invalidation. |

## Left out

- Database queries that only list or count (pending bilans, late prescriptions, the patient's prescriptions, statistics of bilans, passations and prescriptions, tests compatible with an age, the latest IDE test, the active tests, active prescription counts) are not modelled: they are queries of repositories, not part of this model.
- `nettoyerPassationsAbandonneesAnciennes` and `getPassationsSuspenduesARelancer` are left out for the same reason: they are date-bounded repository queries.
- `genererResumeExecutif`, `Bilan::genererResume`, `getClassePriorite` and `getClasseRisque` only format text and CSS classes for display and are not modelled.
- The e-mail, the notification messages and the logging are left out; they have no effect on the state.
- Token generation (`random_bytes`), SHA-256 hashing of the token and Argon2id hashing of the password are parameters: the drawn hash and the hashed password are given to the operations.
- Date parsing (`DateTime::createFromFormat`, with its leniency on overflowing days and months) is a parameter: the typed birth date is given already parsed, or None.
- The calendar difference between two dates (`DateTime::diff`) is a parameter, as is the current time.
- `PreUpdate` callbacks that stamp `updatedAt`, and every entity getter and setter that only stores a value, are not modelled one by one.
- Exceptions are `Result` and `Outcome` values carrying a failure code; the message texts are left out.
- `persist`/`flush` are modelled only as prepending the new passation or bilan to the prescription's list, most recent first, and as storing tokens.
- ActivationService.ValidatePassword: counts characters where `strlen` and the byte-mode pattern count bytes. So a non-ASCII password of at least twelve bytes but fewer than twelve characters is accepted by the source and refused by the model. An example is "ééééé" followed by "Ab1!", which is 14 bytes and 9 characters. ActivatePatient inherits the same difference.
- BilanService.GenererBilanAutomatique: the source writes the interpretation and then replaces it when there are warnings; the model writes the final text once. The passation's age must be set, as for the calculator.
- ScoreCalculator.CalculerScoresIde: the items are those of the test held in memory, in stored order, standing for the repository's `findBy`. An IDE passation with answers must have its age set; the source would fail with a type error when it is missing.
- ActivationService.ValidatePassword: the ensures states only the length and whitespace rules. The letter, digit and special-character rules are tied to the source's pattern by AsWrittenIsPolicyWithoutFinalNewline and PolicyImpliesAsWritten.
- PassationService.DemarrerPassation: the age is computed from the calendar difference supplied by the caller.
- Entities.Bilan.NomNiveauRisque: requires a stored global level. Without one the source returns null from a method typed `string`, which is a type error at run time, so that path has no value to model.
- ScoreCalculator.ValiderCoherenceReponses: requires the age to be set for an IDE test. The source passes a null age to the `int` parameter of `findByTestAndAge`, which is a type error at run time.
- ScoreCalculator.ValiderCoherenceReponses: the "oui" ratio is computed exactly and rounded to tenths of a percent. The source's floating-point division and `round` could differ from this in the last digit.
- Entities.DureeMinutes: works on instants in seconds, so it assumes no daylight-saving shift between the start and the end of a session.
- BilanService.Evolutions: the source keys the scores and `evolution_par_domaine` by domain code. The model keeps sequences in the order of the first report, which agree with the source when a report's domains are distinct, as the keys of an array are.

## Findings

| source | as written | input that shows it | evidently intended | confidence | as-written member | corrected member |
|---|---|---|---|---|---|---|
| src/Entity/Bilan.php:433-436 | reads the key `risque` of a domain entry, which the calculator writes as `niveau_risque` | any stored report, any domain | the domain's stored tier | high, not executed | Entities.Bilan.NiveauRisqueDomaineAsWritten | Entities.Bilan.NiveauRisqueDomaine |
| src/Service/PatientActivationService.php:151-155 | `$` without the D modifier matches before a final line feed, and the line feed itself satisfies the special-character lookahead | "Abcdefghijk1" followed by a line feed | at least twelve non-space characters with a lowercase letter, an uppercase letter, a digit and a special character | high, not executed | ActivationService.TrailingNewlineAccepted | ActivationService.ValidatePassword |
