/**
  What admission and revocation promise: the checked 64-bit rule is the unbounded one wherever its sums fit, a
  deny-list entry outlives every token it denies, and a refusal by revocation is for good.
*/
module BearerLaws {
  import opened Wrappers
  import opened Bearer

  /** Sections 4.1.4, 4.1.5 and 4.1.6 of RFC 7519 with sixty seconds of leeway and a bounded lifetime, over
      unbounded integers. */
  predicate Rule(claims: Claims, lifetime: nat, now: nat) {
    && claims.iat.Some?
    && claims.iat.value <= claims.exp
    && claims.exp - claims.iat.value <= lifetime && claims.exp - claims.iat.value <= 86_400
    && claims.iat.value <= now + 60
    && now < claims.exp + 60
    && (claims.nbf.Some? ==> claims.nbf.value <= now + 60)
  }

  /** The checked rule admits exactly what the unbounded rule admits while both of its sums fit in 64 bits, and
      refuses everything when one does not; what it answers is the token's own issue time. */
  lemma CheckedRuleIsTheRule(claims: Claims, lifetime: u64, now: u64)
    ensures AdmitLifetime(claims, lifetime, now).Ok? <==>
            Rule(claims, lifetime, now) && now + 60 < U64 && claims.exp + 60 < U64
    ensures AdmitLifetime(claims, lifetime, now).Ok? ==> claims.iat == Some(AdmitLifetime(claims, lifetime, now).value)
  {}

  /** A token issued no later than a minute after `r` is admitted at no time from `r` plus the deny-list's
      memory on, however the clock moved in between. */
  lemma DenylistOutlivesTheToken(server: Server, lifetime: u64, claims: Claims, r: nat, now: u64)
    requires claims.iat.Some? && claims.iat.value <= r + LEEWAY_SECONDS
    requires now >= r + DenylistTtl(lifetime)
    ensures AdmitLifetime(claims, WithLifetime(server, lifetime).lifetime, now).Err?
  {
    CheckedRuleIsTheRule(claims, WithLifetime(server, lifetime).lifetime, now);
  }

  /** And no shorter memory would do: one second earlier some such token is still admitted. */
  lemma DenylistIsTight(server: Server, lifetime: u64, r: nat) returns (claims: Claims)
    requires lifetime <= L_MAX_SECONDS && r + 86_400 + 180 < U64
    ensures claims.iat == Some(r + LEEWAY_SECONDS)
    ensures AdmitLifetime(claims, WithLifetime(server, lifetime).lifetime, r + DenylistTtl(lifetime) - 1).Ok?
  {
    claims := Claims({}, r + LEEWAY_SECONDS + lifetime, None, Some(r + LEEWAY_SECONDS), None, None, None);
    CheckedRuleIsTheRule(claims, lifetime, r + DenylistTtl(lifetime) - 1);
  }

  // ----- The tables over a history

  predicate Covers(older: Rows, newer: Rows) {
    && older.jtis.Keys <= newer.jtis.Keys
    && (forall sub :: sub in older.subjects ==> sub in newer.subjects && older.subjects[sub] <= newer.subjects[sub])
    && (older.floor.Some? ==> newer.floor.Some? && older.floor.value <= newer.floor.value)
  }

  lemma ApplyCovers(rows: Rows, w: Write)
    ensures Covers(rows, Apply(rows, w))
  {}

  lemma {:induction false} HistoryCovers(start: Rows, writes: seq<Write>, i: nat, j: nat)
    requires i <= j <= |writes|
    ensures Covers(After(start, writes, i), After(start, writes, j))
  {
    if i < j {
      HistoryCovers(start, writes, i, j - 1);
      ApplyCovers(After(start, writes, j - 1), writes[j - 1]);
      CoversOn(After(start, writes, i), After(start, writes, j - 1), After(start, writes, j));
    }
  }

  lemma CoversOn(a: Rows, b: Rows, c: Rows)
    requires Covers(a, b) && Covers(b, c)
    ensures Covers(a, c)
  {}

  /** The tables hold exactly what was written: a token is revoked when some write revoked it, and a subject
      is denied for an issue time when some write revoked it at that time or later. */
  lemma {:induction false} TablesSayWhatWasWritten(writes: seq<Write>, n: nat, jti: string, sub: string, iat: u64)
    requires n <= |writes|
    ensures var rows := After(Rows(map[], map[], None), writes, n);
            && (IsTokenRevoked(rows, jti) <==>
               exists k :: 0 <= k < n && writes[k].RevokeToken? && writes[k].jti == jti && Fits(writes[k].at))
            && (IsSubjectDenied(rows, sub, Some(iat)) <==>
                exists k :: 0 <= k < n && writes[k].RevokeSubject? && writes[k].sub == sub && Fits(writes[k].at) &&
                  iat <= writes[k].at)
            && (rows.floor.Some? && iat <= rows.floor.value <==>
                exists k :: 0 <= k < n && writes[k].RaiseFloor? && Fits(writes[k].at) && iat <= writes[k].at)
  {
    if n > 0 { TablesSayWhatWasWritten(writes, n - 1, jti, sub, iat); }
  }

  /** A token that does not say when it was issued is denied while any revocation of its subject stands. */
  lemma {:induction false} AnUndatedTokenIsDenied(writes: seq<Write>, n: nat, sub: string)
    requires n <= |writes|
    ensures IsSubjectDenied(After(Rows(map[], map[], None), writes, n), sub, None) <==>
            exists k :: 0 <= k < n && writes[k].RevokeSubject? && writes[k].sub == sub && Fits(writes[k].at)
  {
    if n > 0 { AnUndatedTokenIsDenied(writes, n - 1, sub); }
  }

  // ----- Refused for good

  predicate ByRevocation(why: Why) {
    why.BelowFloor? || why.TokenRevoked? || why.SubjectRevoked?
  }

  /** A validation that read the tables at three moments of a history, in order. */
  function ValidateAt(server: Server, token: Token, now: u64, start: Rows, writes: seq<Write>, i: nat, j: nat,
                      k: nat): Result<Caller, Why>
    requires i <= j <= k <= |writes|
  {
    Validate(server, token, now, After(start, writes, i), After(start, writes, j), After(start, writes, k))
  }

  /** Once a token is refused for its own row, its subject or the floor, every validation that begins later in
      the run refuses it, at whatever server ceiling and whatever the clock says. */
  lemma RevokedIsForGood(server: Server, server': Server, token: Token, now: u64, now': u64, start: Rows,
                         writes: seq<Write>, i: nat, j: nat, k: nat, i': nat, j': nat, k': nat)
    requires i <= j <= k <= i' <= j' <= k' <= |writes|
    requires var first := ValidateAt(server, token, now, start, writes, i, j, k);
             first.Err? && ByRevocation(first.error)
    ensures ValidateAt(server', token, now', start, writes, i', j', k').Err?
  {
    HistoryCovers(start, writes, i, i');
    HistoryCovers(start, writes, j, j');
    HistoryCovers(start, writes, k, k');
    hide After;
  }

  /** A revocation that was acknowledged before a validation began holds against it, and a subject revocation
      at `r` against exactly the tokens issued by then. */
  lemma AcknowledgedRevocationHolds(server: Server, token: Token, now: u64, start: Rows, writes: seq<Write>,
                                    i: nat, j: nat, k: nat, w: nat)
    requires w < i <= j <= k <= |writes| && Fits(writes[w].at)
    requires match writes[w]
             case RevokeToken(jti, _) => token.claims.jti == Some(jti)
             case RevokeSubject(sub, at) => token.claims.sub == Some(sub) &&
               (token.claims.iat.Some? ==> token.claims.iat.value <= at)
             case RaiseFloor(at) => token.claims.iat.Some? ==> token.claims.iat.value <= at
    ensures ValidateAt(server, token, now, start, writes, i, j, k).Err?
  {
    HistoryCovers(start, writes, w + 1, i);
    HistoryCovers(start, writes, w + 1, j);
    HistoryCovers(start, writes, w + 1, k);
    var _ := After(start, writes, w);
    assert After(start, writes, w + 1) == Apply(After(start, writes, w), writes[w]);
    hide After;
  }

  /** A token is refused for its subject only when that subject was revoked at its issue time or later: one
      issued after every revocation of its subject gets in as if there had been none. */
  lemma LaterTokensAreSpared(server: Server, token: Token, now: u64, writes: seq<Write>, i: nat, j: nat, k: nat)
    requires i <= j <= k <= |writes| && token.claims.iat.Some? && token.claims.sub.Some?
    requires forall w :: 0 <= w < k && writes[w].RevokeSubject? && writes[w].sub == token.claims.sub.value ==>
               writes[w].at < token.claims.iat.value
    ensures ValidateAt(server, token, now, Rows(map[], map[], None), writes, i, j, k) != Err(SubjectRevoked)
  {
    TablesSayWhatWasWritten(writes, k, "", token.claims.sub.value, token.claims.iat.value);
    hide After, AdmitLifetime;
  }

  /** What admission means: genuine, addressed here, inside its lifetime by the unbounded rule, and none of the
      three revocations written by the time each table was read. */
  lemma AdmittedMeans(server: Server, token: Token, now: u64, writes: seq<Write>, i: nat, j: nat, k: nat)
    requires i <= j <= k <= |writes|
    ensures ValidateAt(server, token, now, Rows(map[], map[], None), writes, i, j, k).Ok? <==>
            && token.genuine && Rule(token.claims, server.lifetime, now) && now + 60 < U64 &&
               token.claims.exp + 60 < U64
            && server.audience in token.claims.aud && token.claims.sub.Some? && token.claims.azp.Some?
            && (forall w :: 0 <= w < i && writes[w].RaiseFloor? && Fits(writes[w].at) ==>
               writes[w].at < token.claims.iat.value)
            && (forall w :: 0 <= w < j && writes[w].RevokeToken? && Fits(writes[w].at) ==>
               token.claims.jti != Some(writes[w].jti))
            && (forall w :: 0 <= w < k && writes[w].RevokeSubject? && Fits(writes[w].at) ==>
                  writes[w].sub != token.claims.sub.value || writes[w].at < token.claims.iat.value)
  {
    CheckedRuleIsTheRule(token.claims, server.lifetime, now);
    var jti := if token.claims.jti.Some? then token.claims.jti.value else "";
    var sub := if token.claims.sub.Some? then token.claims.sub.value else "";
    var iat := if token.claims.iat.Some? then token.claims.iat.value else 0;
    TablesSayWhatWasWritten(writes, i, jti, sub, iat);
    TablesSayWhatWasWritten(writes, j, jti, sub, iat);
    TablesSayWhatWasWritten(writes, k, jti, sub, iat);
    hide After, AdmitLifetime;
  }

  /** The caller of an admitted token is the one its claims name; it is a service exactly when the client is its own
      subject. */
  lemma TheCallerIsTheTokens(server: Server, token: Token, now: u64, atFloor: Rows, atToken: Rows, atSubject: Rows)
    requires Validate(server, token, now, atFloor, atToken, atSubject).Ok?
    ensures var caller := Validate(server, token, now, atFloor, atToken, atSubject).value;
            && token.claims.sub == Some(caller.sub) && token.claims.azp == Some(caller.client)
            && token.claims.jti == caller.jti && (caller.service <==> caller.client == caller.sub)
  {
    hide AdmitLifetime, IsTokenRevoked, IsSubjectDenied;
  }

  /** No server enforces a ceiling above a day, and up to a day it enforces the one it was given. */
  lemma ACeilingIsADayAtMost(server: Server, lifetime: u64)
    ensures WithLifetime(server, lifetime).lifetime == (if lifetime <= 86_400 then lifetime else 86_400)
    ensures WithLifetime(server, lifetime).audience == server.audience
  {}

  // ----- Which refusal is given

  const LIFETIME_CHECKS: seq<Why> :=
    [NoIssueTime, ExpiresBeforeIssue, TooLong, AboveCeiling, ClockOutOfRange, IssuedInTheFuture, ExpiryOutOfRange,
     Expired, NotYetValid]

  /** The token fails the lifetime check that `why` names, by unbounded arithmetic. Each is asked of a token
      that passed the ones before it. */
  predicate FailsLifetime(why: Why, claims: Claims, lifetime: u64, now: u64) {
    match claims.iat
    case None => why.NoIssueTime?
    case Some(iat) =>
      match why
      case ExpiresBeforeIssue => claims.exp < iat
      case TooLong => claims.exp - iat > 86_400
      case AboveCeiling => claims.exp - iat > lifetime
      case ClockOutOfRange => now + 60 >= U64
      case IssuedInTheFuture => iat > now + 60
      case ExpiryOutOfRange => claims.exp + 60 >= U64
      case Expired => claims.exp + 60 <= now
      case NotYetValid => claims.nbf.Some? && claims.nbf.value > now + 60
      case _ => false
  }

  /** A lifetime refusal names the first check the token fails, and there is one exactly when some check fails. */
  lemma LifetimeRefusalIsTheFirst(claims: Claims, lifetime: u64, now: u64, n: nat)
    requires n < |LIFETIME_CHECKS|
    ensures AdmitLifetime(claims, lifetime, now) == Err(LIFETIME_CHECKS[n]) <==>
            && FailsLifetime(LIFETIME_CHECKS[n], claims, lifetime, now)
            && forall m :: 0 <= m < n ==> !FailsLifetime(LIFETIME_CHECKS[m], claims, lifetime, now)
  {
    var first := AdmitLifetime(claims, lifetime, now);
    assert LIFETIME_CHECKS[0] == NoIssueTime && LIFETIME_CHECKS[1] == ExpiresBeforeIssue &&
      LIFETIME_CHECKS[2] == TooLong;
    assert LIFETIME_CHECKS[3] == AboveCeiling && LIFETIME_CHECKS[4] == ClockOutOfRange &&
      LIFETIME_CHECKS[5] == IssuedInTheFuture;
    assert LIFETIME_CHECKS[6] == ExpiryOutOfRange && LIFETIME_CHECKS[7] == Expired && LIFETIME_CHECKS[8] == NotYetValid;
  }

  const CHECKS: seq<Why> := [NotGenuine, BelowFloor, OtherAudience, NoSubject, NoClient, TokenRevoked, SubjectRevoked]

  /** The check of `validate` that `why` names is not passed. */
  predicate Fails(why: Why, server: Server, token: Token, atFloor: Rows, atToken: Rows, atSubject: Rows) {
    var c := token.claims;
    match why
    case NotGenuine => !token.genuine
    case BelowFloor => atFloor.floor.Some? && (c.iat.Some? ==> c.iat.value <= atFloor.floor.value)
    case OtherAudience => server.audience !in c.aud
    case NoSubject => c.sub == None
    case NoClient => c.azp == None
    case TokenRevoked => c.jti.Some? && IsTokenRevoked(atToken, c.jti.value)
    case SubjectRevoked => c.sub.Some? && IsSubjectDenied(atSubject, c.sub.value, c.iat)
    case _ => false
  }

  /** The checks run in order and the first that fails speaks: the lifetime's own after the signature's, the
      tables after both. */
  lemma FirstFailedCheckSpeaks(server: Server, token: Token, now: u64, atFloor: Rows, atToken: Rows, atSubject: Rows,
                               n: nat)
    requires n < |CHECKS|
    ensures Validate(server, token, now, atFloor, atToken, atSubject) == Err(CHECKS[n]) <==>
            && Fails(CHECKS[n], server, token, atFloor, atToken, atSubject)
            && (n > 0 ==> AdmitLifetime(token.claims, server.lifetime, now).Ok?)
            && forall m :: 0 <= m < n ==> !Fails(CHECKS[m], server, token, atFloor, atToken, atSubject)
  {
    assert CHECKS[0] == NotGenuine && CHECKS[1] == BelowFloor && CHECKS[2] == OtherAudience && CHECKS[3] == NoSubject;
    assert CHECKS[4] == NoClient && CHECKS[5] == TokenRevoked && CHECKS[6] == SubjectRevoked;
    LifetimeWhys(token.claims, server.lifetime, now);
    CheckedRuleIsTheRule(token.claims, server.lifetime, now);
    hide AdmitLifetime, IsTokenRevoked, IsSubjectDenied;
  }

  lemma LifetimeWhys(claims: Claims, lifetime: u64, now: u64)
    ensures AdmitLifetime(claims, lifetime, now).Err? ==> AdmitLifetime(claims, lifetime, now).error !in CHECKS
  {
    assert forall why :: why in CHECKS ==>
      why.NotGenuine? || why.BelowFloor? || why.OtherAudience? || why.NoSubject? || why.NoClient? ||
        why.TokenRevoked? || why.SubjectRevoked?;
  }

  // ----- The rate limit

  /** The verdicts a history of hits got, oldest first. */
  function AdmittedHits(hits: seq<Hit>, identity: string, window: nat, limit: nat): nat {
    if hits == [] then 0
    else
      var front, last := hits[..|hits| - 1], hits[|hits| - 1];
      AdmittedHits(front, identity, window, limit)
      + if last.identity == identity && last.now / RATE_LIMIT_WINDOW_SECONDS == window &&
           Earlier(front, identity, window) < limit
        then 1 else 0
  }

  /** In no window does an identity get more than its ceiling, and it gets all of it that it asks for. */
  lemma {:induction false} NeverAboveTheCeiling(hits: seq<Hit>, identity: string, window: nat, limit: nat)
    ensures AdmittedHits(hits, identity, window, limit) ==
            if Earlier(hits, identity, window) < limit then Earlier(hits, identity, window) else limit
  {
    if hits != [] { NeverAboveTheCeiling(hits[..|hits| - 1], identity, window, limit); }
  }
}
