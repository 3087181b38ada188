/** PatientActivationService: a patient activates their account with a single-use
    token sent by e-mail, their birth date as a second factor and a new password
    that must meet the password policy. The activation-token table is the
    `TokenRepository` below. Random token generation, hashing (SHA-256 of the token,
    Argon2id of the password), date parsing, e-mail, notifications and logging are
    outside the model: their results are parameters. */
module ActivationService {
  import opened Base
  import opened Entities

  /** A token expires 24 hours after it is issued. */
  const TokenLifetime: int := 24 * SecondsPerHour

  // ---------------------------------------------------------------------------
  // The token table (PatientActivationTokenRepository).

  /** Stored hashes are unique (the `token_hash` column is unique). */
  predicate HashesUniques(ts: seq<PatientActivationToken>)
    reads ts`tokenHash
  {
    forall i, j :: 0 <= i < j < |ts| && ts[i].tokenHash.Some? ==> ts[i].tokenHash != ts[j].tokenHash
  }

  /** Some stored token carries the hash `h`. */
  predicate Stocke(ts: seq<PatientActivationToken>, h: Option<string>)
    reads ts`tokenHash
  {
    exists k :: 0 <= k < |ts| && ts[k].tokenHash == h
  }

  /** Storing a token whose hash is not yet stored keeps hashes unique. */
  lemma AppendKeepsHashesUniques(ts: seq<PatientActivationToken>, t: PatientActivationToken)
    requires HashesUniques(ts)
    requires forall k :: 0 <= k < |ts| ==> ts[k].tokenHash != t.tokenHash
    ensures HashesUniques(ts + [t])
  {
    var us := ts + [t];
    forall i, j | 0 <= i < j < |us| && us[i].tokenHash.Some?
      ensures us[i].tokenHash != us[j].tokenHash
    {
      if j == |ts| {
        assert us[i] == ts[i] && us[j] == t;
      } else {
        assert us[i] == ts[i] && us[j] == ts[j];
      }
    }
  }

  /** The first stored token with hash `hash` that is still valid at `now`, or null:
      the repository's `findValidTokenByHash`. */
  function FindValid(ts: seq<PatientActivationToken>, hash: string, now: Instant): (r: PatientActivationToken?)
    reads ts
    ensures r != null ==> r in ts && r.tokenHash == Some(hash) && r.IsValid(now)
    ensures r == null <==> forall k :: 0 <= k < |ts| ==> !(ts[k].tokenHash == Some(hash) && ts[k].IsValid(now))
    decreases |ts|
  {
    if ts == [] then null
    else if ts[0].tokenHash == Some(hash) && ts[0].IsValid(now) then ts[0]
    else
      var r := FindValid(ts[1..], hash, now);
      assert r == null ==> forall k :: 1 <= k < |ts| ==> ts[1..][k - 1] == ts[k];
      r
  }

  /** A used token whose hash is unique in the table leaves no valid token for that
      hash, at any time. */
  lemma UsedHashFindsNothing(ts: seq<PatientActivationToken>, k: nat, later: Instant)
    requires HashesUniques(ts) && k < |ts| && ts[k].tokenHash.Some? && ts[k].IsUsed()
    ensures FindValid(ts, ts[k].tokenHash.value, later) == null
  {
    forall j | 0 <= j < |ts|
      ensures !(ts[j].tokenHash == ts[k].tokenHash && ts[j].IsValid(later))
    {
      if j != k {
        assert ts[j].tokenHash != ts[k].tokenHash;
      }
    }
  }

  /** Expired strictly before `now`; a token without expiry is never deleted (SQL's
      comparison with NULL is not true). */
  predicate ExpireAvant(t: PatientActivationToken, now: Instant)
    reads t
  {
    t.expiresAt.Some? && t.expiresAt.value < now
  }

  /** The tokens that survive `deleteExpiredTokens`, in order. */
  function Restants(ts: seq<PatientActivationToken>, now: Instant): (r: seq<PatientActivationToken>)
    reads ts
    ensures |r| <= |ts|
    ensures forall k :: 0 <= k < |r| ==> r[k] in ts && !ExpireAvant(r[k], now)
    ensures forall k :: 0 <= k < |ts| && !ExpireAvant(ts[k], now) ==> ts[k] in r
    decreases |ts|
  {
    if ts == [] then []
    else
      var init := ts[..|ts| - 1];
      var t := ts[|ts| - 1];
      var r := Restants(init, now) + (if ExpireAvant(t, now) then [] else [t]);
      assert forall k :: 0 <= k < |ts| - 1 ==> ts[k] == init[k];
      r
  }

  /** Cleaning never removes a token that is still valid. */
  lemma ValidSurvivesCleaning(ts: seq<PatientActivationToken>, t: PatientActivationToken, now: Instant)
    requires t in ts && t.IsValid(now)
    ensures t in Restants(ts, now)
  {
  }

  class TokenRepository {
    var tokens: seq<PatientActivationToken>

    constructor ()
      ensures tokens == []
    {
      tokens := [];
    }

    /** The table's constraints: every token belongs to a patient (the join column is
        not nullable) and hashes are unique. */
    predicate Valid()
      reads this`tokens, tokens`patient, tokens`tokenHash
    {
      (forall k :: 0 <= k < |tokens| ==> tokens[k].patient != null) && HashesUniques(tokens)
    }

    /** The new `usedAt` of a token after invalidating `patient`'s tokens at `now`. */
    static function Invalide(t: PatientActivationToken, patient: Patient, usedAt: Option<Instant>, now: Instant): Option<Instant>
      reads t
    {
      if t.patient == patient && usedAt.None? then Some(now) else usedAt
    }

    /** invalidateAllTokensForPatient: every unused token of `patient` is marked used
        at `now`; nothing else changes. */
    method InvalidateAllTokensForPatient(patient: Patient, now: Instant)
      modifies tokens`usedAt
      ensures forall k :: 0 <= k < |tokens| ==>
                tokens[k].usedAt == Invalide(tokens[k], patient, old(tokens[k].usedAt), now)
    {
      for i := 0 to |tokens|
        invariant forall k :: 0 <= k < |tokens| ==>
                    tokens[k].usedAt == (if tokens[k] in tokens[..i]
                                         then Invalide(tokens[k], patient, old(tokens[k].usedAt), now)
                                         else old(tokens[k].usedAt))
      {
        var t := tokens[i];
        assert forall k :: 0 <= k < |tokens| ==> (tokens[k] in tokens[..i + 1] <==> tokens[k] in tokens[..i] || tokens[k] == t);
        if t.patient == patient && t.usedAt.None? {
          t.usedAt := Some(now);
        }
      }
    }

    /** deleteExpiredTokens: removes the tokens that expired before `now` and
        returns how many rows went. */
    method DeleteExpiredTokens(now: Instant) returns (deleted: nat)
      modifies this`tokens
      ensures tokens == Restants(old(tokens), now)
      ensures deleted == |old(tokens)| - |tokens|
    {
      var kept: seq<PatientActivationToken> := [];
      for i := 0 to |tokens|
        invariant kept == Restants(tokens[..i], now)
      {
        assert tokens[..i + 1][..i] == tokens[..i];
        if !ExpireAvant(tokens[i], now) {
          kept := kept + [tokens[i]];
        }
      }
      assert tokens[..|tokens|] == tokens;
      deleted := |tokens| - |kept|;
      tokens := kept;
    }

    /** persist and flush of a new token: the row is inserted unless its hash is
        already stored, in which case the unique column rejects it and nothing is
        stored. */
    method Enregistrer(t: PatientActivationToken) returns (ok: bool)
      requires Valid() && t.patient != null
      modifies this`tokens
      ensures Valid()
      ensures ok <==> !old(Stocke(tokens, t.tokenHash))
      ensures tokens == if ok then old(tokens) + [t] else old(tokens)
    {
      var k := 0;
      while k < |tokens|
        invariant 0 <= k <= |tokens|
        invariant forall j :: 0 <= j < k ==> tokens[j].tokenHash != t.tokenHash
      {
        if tokens[k].tokenHash == t.tokenHash {
          return false;
        }
        k := k + 1;
      }
      AppendKeepsHashesUniques(tokens, t);
      tokens := tokens + [t];
      return true;
    }
  }

  // ---------------------------------------------------------------------------
  // validatePassword

  predicate IsLower(c: char) { 'a' <= c <= 'z' }
  predicate IsUpper(c: char) { 'A' <= c <= 'Z' }
  predicate IsAlnum(c: char) { IsLower(c) || IsUpper(c) || IsDigit(c) }

  /** PCRE's `\s`: space, tab, line feed, vertical tab, form feed, carriage return. */
  predicate IsSpace(c: char) {
    c == ' ' || c == '\t' || c == '\n' || c == '\U{000B}' || c == '\U{000C}' || c == '\r'
  }

  predicate Has(p: string, cls: char -> bool) {
    exists k :: 0 <= k < |p| && cls(p[k])
  }

  /** The policy: at least 12 characters, no whitespace, and at least one lowercase
      letter, one uppercase letter, one digit and one other character. */
  function ValidatePassword(p: string): (ok: bool)
    ensures ok ==> |p| >= 12 && forall k :: 0 <= k < |p| ==> !IsSpace(p[k])
  {
    |p| >= 12 && (forall k :: 0 <= k < |p| ==> !IsSpace(p[k]))
    && Has(p, IsLower) && Has(p, IsUpper) && Has(p, IsDigit) && Has(p, c => !IsAlnum(c))
  }

  /** `(?=.*X)` at the start of the subject: an X occurs before the first line feed,
      since `.` does not match a line feed. */
  predicate LookaheadFinds(p: string, cls: char -> bool) {
    exists k :: 0 <= k < |p| && cls(p[k]) && forall j :: 0 <= j < k ==> p[j] != '\n'
  }

  /** `$` without the D modifier: the end of the subject, or just before a final line
      feed. */
  predicate DollarAt(p: string, e: nat) {
    e == |p| || (e + 1 == |p| && p[e] == '\n')
  }

  /** `^[^\s]{12,}$`: twelve or more non-whitespace characters, then `$`. */
  predicate BodyMatches(p: string) {
    exists e :: 12 <= e <= |p| && DollarAt(p, e) && forall j :: 0 <= j < e ==> !IsSpace(p[j])
  }

  /** The check as written: `strlen($password) >= 12` and a match of the pattern
      with its four lookaheads. */
  predicate ValidatePasswordAsWritten(p: string) {
    |p| >= 12
    && LookaheadFinds(p, IsLower) && LookaheadFinds(p, IsUpper) && LookaheadFinds(p, IsDigit)
    && LookaheadFinds(p, c => !IsAlnum(c))
    && BodyMatches(p)
  }

  /** On a password that does not end with a line feed, the check as written is the
      policy. */
  lemma AsWrittenIsPolicyWithoutFinalNewline(p: string)
    requires p == [] || p[|p| - 1] != '\n'
    ensures ValidatePasswordAsWritten(p) <==> ValidatePassword(p)
  {
    if ValidatePasswordAsWritten(p) {
      var e :| 12 <= e <= |p| && DollarAt(p, e) && forall j :: 0 <= j < e ==> !IsSpace(p[j]);
      assert e == |p|;
      var kl :| 0 <= kl < |p| && IsLower(p[kl]) && forall j :: 0 <= j < kl ==> p[j] != '\n';
      var ku :| 0 <= ku < |p| && IsUpper(p[ku]) && forall j :: 0 <= j < ku ==> p[j] != '\n';
      var kd :| 0 <= kd < |p| && IsDigit(p[kd]) && forall j :: 0 <= j < kd ==> p[j] != '\n';
      var ks :| 0 <= ks < |p| && !IsAlnum(p[ks]) && forall j :: 0 <= j < ks ==> p[j] != '\n';
      assert Has(p, IsLower) && Has(p, IsUpper) && Has(p, IsDigit) && Has(p, c => !IsAlnum(c));
    }
    if ValidatePassword(p) {
      assert forall j :: 0 <= j < |p| ==> p[j] != '\n';
      var kl :| 0 <= kl < |p| && IsLower(p[kl]);
      var ku :| 0 <= ku < |p| && IsUpper(p[ku]);
      var kd :| 0 <= kd < |p| && IsDigit(p[kd]);
      var ks :| 0 <= ks < |p| && !IsAlnum(p[ks]);
      assert LookaheadFinds(p, IsLower) && LookaheadFinds(p, IsUpper) && LookaheadFinds(p, IsDigit);
      assert LookaheadFinds(p, c => !IsAlnum(c));
      assert DollarAt(p, |p|);
    }
  }

  /** Every password the policy accepts, the check as written accepts too. */
  lemma PolicyImpliesAsWritten(p: string)
    requires ValidatePassword(p)
    ensures ValidatePasswordAsWritten(p)
  {
    assert p[|p| - 1] != '\n';
    AsWrittenIsPolicyWithoutFinalNewline(p);
  }

  /** A twelve-character password with no special character, followed by a line
      feed, passes the check as written: `$` matches before the line feed and the
      line feed itself satisfies the special-character lookahead. */
  lemma TrailingNewlineAccepted()
    ensures ValidatePasswordAsWritten("Abcdefghijk1\n")
    ensures !ValidatePassword("Abcdefghijk1\n")
  {
    var p := "Abcdefghijk1\n";
    assert IsLower(p[1]) && IsUpper(p[0]) && IsDigit(p[11]) && !IsAlnum(p[12]);
    assert forall j :: 0 <= j < 12 ==> p[j] != '\n' && !IsSpace(p[j]);
    assert LookaheadFinds(p, IsLower) && LookaheadFinds(p, IsUpper) && LookaheadFinds(p, IsDigit);
    assert LookaheadFinds(p, c => !IsAlnum(c));
    assert DollarAt(p, 12);
    assert IsSpace(p[12]);
  }

  // ---------------------------------------------------------------------------
  // verifyDateNaissance

  /** `format('Y')`: at least four digits, zero-padded, with a minus sign before a
      year before year zero. */
  function FormatAnnee(y: int): (s: string)
    decreases if y < 0 then 1 - y else 0
    ensures 0 <= y < 10000 ==> s == [DigitChar(y / 1000), DigitChar(y / 100 % 10), DigitChar(y / 10 % 10), DigitChar(y % 10)]
  {
    if y < 0 then "-" + FormatAnnee(-y)
    else if y < 10000 then [DigitChar(y / 1000), DigitChar(y / 100 % 10), DigitChar(y / 10 % 10), DigitChar(y % 10)]
    else NatToString(y)
  }

  /** `format('Y-m-d')`. */
  function FormatYmd(d: Date): string {
    FormatAnnee(d.year) + "-" + Pad2(d.month) + "-" + Pad2(d.day)
  }

  /** A calendar date as a DateTime holds it, with a four-digit year. */
  predicate DateCalendaire(d: Date) {
    0 <= d.year < 10000 && 1 <= d.month <= 12 && 1 <= d.day <= 31
  }

  /** verifyDateNaissance: the stored birth date and the typed one, parsed as Y-m-d
      (`saisie`, None when it does not parse), format identically. */
  function VerifyDateNaissance(stockee: Option<Date>, saisie: Option<Date>): bool {
    stockee.Some? && saisie.Some? && FormatYmd(stockee.value) == FormatYmd(saisie.value)
  }

  /** `%02d` of a number below 100 is its two digits. */
  lemma Pad2Digits(n: int)
    requires 0 <= n < 100
    ensures Pad2(n) == [DigitChar(n / 10), DigitChar(n % 10)]
  {
    if n >= 10 {
      assert NatToString(n) == NatToString(n / 10) + [DigitChar(n % 10)];
    }
  }

  lemma FourDigits(y: int)
    requires 0 <= y < 10000
    ensures y == 1000 * (y / 1000) + 100 * (y / 100 % 10) + 10 * (y / 10 % 10) + y % 10
  {
    var q := y / 10;
    assert y == 10 * q + y % 10;
    assert q / 10 == y / 100;
    assert q / 100 == y / 1000;
    assert q == 100 * (q / 100) + 10 * (q / 10 % 10) + q % 10;
  }

  /** A strict reader of ten-character `Y-m-d` strings, used only to show that the
      formatting of a date loses nothing; it is not a model of the lenient parser. */
  function LireYmd(s: string): (r: Option<Date>)
    ensures r.Some? ==> |s| == 10 && s[4] == '-' && s[7] == '-'
  {
    if |s| == 10 && s[4] == '-' && s[7] == '-'
       && IsDigit(s[0]) && IsDigit(s[1]) && IsDigit(s[2]) && IsDigit(s[3])
       && IsDigit(s[5]) && IsDigit(s[6]) && IsDigit(s[8]) && IsDigit(s[9])
    then
      Some(Date(1000 * DigitValue(s[0]) + 100 * DigitValue(s[1]) + 10 * DigitValue(s[2]) + DigitValue(s[3]),
                10 * DigitValue(s[5]) + DigitValue(s[6]),
                10 * DigitValue(s[8]) + DigitValue(s[9])))
    else None
  }

  /** A calendar date formatted as `Y-m-d` reads back as itself. */
  lemma LireFormatYmd(d: Date)
    requires DateCalendaire(d)
    ensures LireYmd(FormatYmd(d)) == Some(d)
  {
    Pad2Digits(d.month);
    Pad2Digits(d.day);
    FourDigits(d.year);
    var s := FormatYmd(d);
    assert s == [DigitChar(d.year / 1000), DigitChar(d.year / 100 % 10), DigitChar(d.year / 10 % 10), DigitChar(d.year % 10),
                 '-', DigitChar(d.month / 10), DigitChar(d.month % 10), '-', DigitChar(d.day / 10), DigitChar(d.day % 10)];
  }

  /** On calendar dates, the formatted comparison is equality of the dates. */
  lemma VerifyDateIsEquality(a: Date, b: Date)
    requires DateCalendaire(a) && DateCalendaire(b)
    ensures VerifyDateNaissance(Some(a), Some(b)) <==> a == b
  {
    LireFormatYmd(a);
    LireFormatYmd(b);
  }

  // ---------------------------------------------------------------------------
  // validateActivationToken, activatePatient

  /** validateActivationToken: the valid token stored under `tokenHash`, or null. */
  function ValidateActivationToken(repo: TokenRepository, tokenHash: string, now: Instant): (t: PatientActivationToken?)
    reads repo, repo.tokens
    ensures t != null ==> t in repo.tokens && t.tokenHash == Some(tokenHash) && t.IsValid(now)
    ensures t == null <==> forall k :: 0 <= k < |repo.tokens| ==>
                             !(repo.tokens[k].tokenHash == Some(tokenHash) && repo.tokens[k].IsValid(now))
  {
    var t := FindValid(repo.tokens, tokenHash, now);
    if t == null || !t.IsValid(now) then null else t
  }

  /** The patients the stored tokens belong to. */
  function Patients(ts: seq<PatientActivationToken>): set<Patient>
    reads ts
  {
    set t | t in ts && t.patient != null :: t.patient as Patient
  }

  /** What activatePatient accepts, in the order it checks: a valid token, the
      right birth date, a password meeting the policy. */
  predicate ActivationAcceptee(repo: TokenRepository, tokenHash: string, saisie: Option<Date>,
                               motDePasse: string, now: Instant)
    reads repo, repo.tokens, Patients(repo.tokens)
  {
    // The token search is used through its contract only.
    hide FindValid;
    var t := ValidateActivationToken(repo, tokenHash, now);
    t != null && t.patient != null
    && VerifyDateNaissance(t.patient.dateNaissance, saisie) && ValidatePassword(motDePasse)
  }

  /** activatePatient. `tokenHash` is the hash of the token the patient presents,
      `saisie` the typed birth date as parsed, `motDePasseHache` the hash of the new
      password. On success the patient's password is set and the token is used up,
      so the same token can never activate again; on failure nothing changes. */
  method ActivatePatient(repo: TokenRepository, tokenHash: string, saisie: Option<Date>,
                         motDePasse: string, motDePasseHache: string, now: Instant)
    returns (ok: bool)
    requires repo.Valid()
    modifies repo.tokens`usedAt, Patients(repo.tokens)`password
    ensures ok <==> old(ActivationAcceptee(repo, tokenHash, saisie, motDePasse, now))
    ensures !ok ==> forall k :: 0 <= k < |repo.tokens| ==> repo.tokens[k].usedAt == old(repo.tokens[k].usedAt)
    ensures !ok ==> forall p :: p in Patients(repo.tokens) ==> p.password == old(p.password)
    ensures ok ==>
              var t := old(ValidateActivationToken(repo, tokenHash, now));
              t.usedAt == Some(now) && t.patient.password == Some(motDePasseHache)
              && (forall k :: 0 <= k < |repo.tokens| && repo.tokens[k] != t ==> repo.tokens[k].usedAt == old(repo.tokens[k].usedAt))
              && (forall p :: p in Patients(repo.tokens) && p != t.patient ==> p.password == old(p.password))
    ensures ok ==> forall later :: ValidateActivationToken(repo, tokenHash, later) == null
  {
    // The token search is used through its contract only.
    hide FindValid;
    var t := ValidateActivationToken(repo, tokenHash, now);
    if t == null {
      return false;
    }
    var patient := t.patient;
    if !VerifyDateNaissance(patient.dateNaissance, saisie) {
      return false;
    }
    if !ValidatePassword(motDePasse) {
      return false;
    }
    var k :| 0 <= k < |repo.tokens| && repo.tokens[k] == t;
    assert forall j :: 0 <= j < |repo.tokens| && j != k ==> repo.tokens[j].tokenHash != Some(tokenHash);
    patient.password := Some(motDePasseHache);
    t.MarkAsUsed(now);
    forall later, j | 0 <= j < |repo.tokens|
      ensures !(repo.tokens[j].tokenHash == Some(tokenHash) && repo.tokens[j].IsValid(later))
    {
    }
    return true;
  }

  // ---------------------------------------------------------------------------
  // generateAndSendActivationToken

  /** generateAndSendActivationToken. All of the patient's unused tokens are first
      marked used; then a token with the drawn hash `tokenHash`, expiring 24 hours
      later, is stored. Should the hash already be stored, the insertion fails on
      the unique column and the result is None, the invalidation having happened.
      The plain token goes out by e-mail, which is not modelled. */
  method GenerateActivationToken(repo: TokenRepository, patient: Patient, tokenHash: string,
                                 request: Option<RequestInfo>, now: Instant)
    returns (r: Option<PatientActivationToken>)
    requires repo.Valid()
    modifies repo`tokens, repo.tokens`usedAt
    ensures repo.Valid()
    ensures forall k :: 0 <= k < |old(repo.tokens)| ==>
              old(repo.tokens)[k].usedAt
              == TokenRepository.Invalide(old(repo.tokens)[k], patient, old(repo.tokens[k].usedAt), now)
    ensures r.None? <==> old(Stocke(repo.tokens, Some(tokenHash)))
    ensures r.None? ==> repo.tokens == old(repo.tokens)
    ensures r.Some? ==>
              var t := r.value;
              fresh(t) && repo.tokens == old(repo.tokens) + [t]
              && t.patient == patient && t.tokenHash == Some(tokenHash)
              && t.expiresAt == Some(now + TokenLifetime) && t.usedAt.None? && t.createdAt == now
              && t.ipCreated == (if request.Some? then request.value.clientIp else None)
              && t.userAgentCreated == (if request.Some? then request.value.userAgent else None)
              && t.IsValid(now)
    ensures r.Some? ==> forall k :: 0 <= k < |repo.tokens| && repo.tokens[k].patient == patient && repo.tokens[k] != r.value
                          ==> repo.tokens[k].IsUsed()
  {
    // The table's invariants pass through the calls below unopened.
    hide TokenRepository.Valid, Stocke, HashesUniques;
    repo.InvalidateAllTokensForPatient(patient, now);
    var t := new PatientActivationToken(now);
    t.patient := patient;
    t.tokenHash := Some(tokenHash);
    t.expiresAt := Some(now + TokenLifetime);
    if request.Some? {
      t.ipCreated := request.value.clientIp;
      t.userAgentCreated := request.value.userAgent;
    }
    var ok := repo.Enregistrer(t);
    r := if ok then Some(t) else None;
  }
}
