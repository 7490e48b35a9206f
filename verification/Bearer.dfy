/**
  Bearer admission (crates/rahi-idp/src/bearer.rs) and durable revocation (crates/rahi-idp/src/revoke.rs over
  the tables of crates/rahi-store/src/store.rs).

  Signatures, key lookup, decoding and the issuer are one oracle bit of the token; instants are 64-bit and
  every sum on them is checked, as the source's are.
*/
module Bearer {
  import opened Wrappers

  const U64 := 0x1_0000_0000_0000_0000
  const I64_MAX := 0x7fff_ffff_ffff_ffff
  const LEEWAY_SECONDS: u64 := 60
  const L_MAX_SECONDS: u64 := 86_400

  type u64 = x: nat | x < U64 witness 0

  function CheckedAdd(a: u64, b: u64): Option<u64> {
    if a + b < U64 then Some(a + b) else None
  }

  function CheckedSub(a: u64, b: u64): Option<u64> {
    if a >= b then Some(a - b) else None
  }

  function SaturatingAdd(a: u64, b: u64): u64 {
    if a + b < U64 then a + b else U64 - 1
  }

  /** `azp` and `sub` are what is left after trimming, absent when blank. */
  datatype Claims = Claims(aud: set<string>, exp: u64, nbf: Option<u64>, iat: Option<u64>, jti: Option<string>,
                           sub: Option<string>, azp: Option<string>)

  datatype Token = Token(genuine: bool, claims: Claims)

  datatype Server = Server(audience: string, lifetime: u64)

  /** `with_lifetime`: the ceiling the server enforces. */
  function WithLifetime(server: Server, lifetime: u64): Server {
    server.(lifetime := Min(lifetime, L_MAX_SECONDS))
  }

  function DenylistTtl(lifetime: u64): u64 {
    SaturatingAdd(lifetime, 2 * LEEWAY_SECONDS)
  }

  // ----- Caller by lifetime

  datatype Why =
    | NotGenuine
    | NoIssueTime | ExpiresBeforeIssue | TooLong | AboveCeiling | ClockOutOfRange | IssuedInTheFuture
    | ExpiryOutOfRange | Expired | NotYetValid
    | BelowFloor | OtherAudience | NoSubject | NoClient | TokenRevoked | SubjectRevoked

  function AdmitLifetime(claims: Claims, lifetime: u64, now: u64): Result<u64, Why> {
    match claims.iat
    case None => Err(NoIssueTime)
    case Some(iat) =>
      match CheckedSub(claims.exp, iat)
      case None => Err(ExpiresBeforeIssue)
      case Some(span) =>
        if span > L_MAX_SECONDS then Err(TooLong)
        else if span > lifetime then Err(AboveCeiling)
        else match CheckedAdd(now, LEEWAY_SECONDS)
          case None => Err(ClockOutOfRange)
          case Some(horizon) =>
            if iat > horizon then Err(IssuedInTheFuture)
            else match CheckedAdd(claims.exp, LEEWAY_SECONDS)
              case None => Err(ExpiryOutOfRange)
              case Some(validUntil) =>
                if validUntil <= now then Err(Expired)
                else if claims.nbf.Some? && claims.nbf.value > horizon then Err(NotYetValid)
                else Ok(iat)
  }

  // ----- The revocation tables

  datatype Rows = Rows(jtis: map<string, u64>, subjects: map<string, u64>, floor: Option<u64>)

  datatype Write = RevokeToken(jti: string, at: u64) | RevokeSubject(sub: string, at: u64) | RaiseFloor(at: u64)

  /** An instant SQLite's signed column can hold; any other write is refused. */
  predicate Fits(at: u64) {
    at <= I64_MAX
  }

  /** One write: a token's first row stays, a subject's instant and the floor only rise. */
  function Apply(rows: Rows, w: Write): Rows {
    if !Fits(w.at) then rows
    else match w
      case RevokeToken(jti, at) => if jti in rows.jtis then rows else rows.(jtis := rows.jtis[jti := at])
      case RevokeSubject(sub, at) =>
        rows.(subjects := rows.subjects[sub := if sub in rows.subjects then Max(rows.subjects[sub], at) else at])
      case RaiseFloor(at) => rows.(floor := Some(if rows.floor.Some? then Max(rows.floor.value, at) else at))
  }

  /** The tables as the store's methods change them. */
  class Revocations {
    var jtis: map<string, u64>
    var subjects: map<string, u64>
    var floor: Option<u64>

    ghost function Contents(): Rows
      reads this
    {
      Rows(jtis, subjects, floor)
    }

    constructor ()
      ensures Contents() == Rows(map[], map[], None)
    {
      jtis, subjects, floor := map[], map[], None;
    }

    method RecordToken(jti: string, at: u64) returns (stored: bool)
      modifies this
      ensures stored <==> at <= 0x7fff_ffff_ffff_ffff
      ensures Contents() == Apply(old(Contents()), RevokeToken(jti, at))
      ensures stored ==> jti in jtis
    {
      if at > I64_MAX {
        return false;
      }
      if jti !in jtis {
        jtis := jtis[jti := at];
      }
      return true;
    }

    method RecordSubject(sub: string, at: u64) returns (stored: bool)
      modifies this
      ensures stored <==> at <= 0x7fff_ffff_ffff_ffff
      ensures Contents() == Apply(old(Contents()), RevokeSubject(sub, at))
      ensures stored ==> sub in subjects && subjects[sub] >= at
    {
      if at > I64_MAX {
        return false;
      }
      if sub !in subjects || subjects[sub] < at {
        subjects := subjects[sub := at];
      }
      return true;
    }

    method Raise(at: u64) returns (stored: bool)
      modifies this
      ensures stored <==> at <= 0x7fff_ffff_ffff_ffff
      ensures Contents() == Apply(old(Contents()), RaiseFloor(at))
      ensures stored ==> floor.Some? && floor.value >= at
    {
      if at > I64_MAX {
        return false;
      }
      if floor.None? || floor.value < at {
        floor := Some(at);
      }
      return true;
    }
  }

  predicate IsTokenRevoked(rows: Rows, jti: string) {
    jti in rows.jtis
  }

  predicate IsSubjectDenied(rows: Rows, sub: string, issuedAt: Option<u64>) {
    sub in rows.subjects && (issuedAt.Some? ==> issuedAt.value <= rows.subjects[sub])
  }

  // ----- Validation

  datatype Caller = Caller(sub: string, client: string, service: bool, jti: Option<string>)

  /** `validate`, in its order of checks. The floor, the token's row and the subject's row are read at three
      different moments. */
  function Validate(server: Server, token: Token, now: u64, atFloor: Rows, atToken: Rows,
                    atSubject: Rows): Result<Caller, Why> {
    var claims := token.claims;
    if !token.genuine then Err(NotGenuine)
    else match AdmitLifetime(claims, server.lifetime, now)
      case Err(why) => Err(why)
      case Ok(iat) =>
        if atFloor.floor.Some? && iat <= atFloor.floor.value then Err(BelowFloor)
        else if server.audience !in claims.aud then Err(OtherAudience)
        else if claims.sub == None then Err(NoSubject)
        else if claims.azp == None then Err(NoClient)
        else if claims.jti.Some? && IsTokenRevoked(atToken, claims.jti.value) then Err(TokenRevoked)
        else if IsSubjectDenied(atSubject, claims.sub.value, claims.iat) then Err(SubjectRevoked)
        else Ok(Caller(claims.sub.value, claims.azp.value, claims.azp == claims.sub, claims.jti))
  }

  /** The tables after the first `n` writes of a history. */
  function After(start: Rows, writes: seq<Write>, n: nat): Rows
    requires n <= |writes|
  {
    if n == 0 then start else Apply(After(start, writes, n - 1), writes[n - 1])
  }

  // ----- The bearer rate limit

  const RATE_LIMIT_WINDOW_SECONDS := 60

  datatype Admission = Admitted | Spent(retryAfter: nat)

  /** One counted request: the window's counter, and whether it is still inside the ceiling. */
  datatype Hit = Hit(identity: string, now: u64)

  function Earlier(hits: seq<Hit>, identity: string, window: nat): nat {
    if hits == [] then 0
    else Earlier(hits[..|hits| - 1], identity, window)
         + if hits[|hits| - 1].identity == identity && hits[|hits| - 1].now / RATE_LIMIT_WINDOW_SECONDS == window
           then 1 else 0
  }

  class Counters {
    var counts: map<(string, nat), nat>

    constructor ()
      ensures counts == map[]
    {
      counts := map[];
    }

    /** The counter of each identity and window holds how many hits it had. */
    ghost predicate Holds(hits: seq<Hit>)
      reads this
    {
      forall identity: string, window: nat ::
        Earlier(hits, identity, window) == (if (identity, window) in counts then counts[(identity, window)] else 0)
    }

    method Count(identity: string, now: u64, limit: nat, ghost hits: seq<Hit>) returns (counted: Admission)
      requires Holds(hits)
      modifies this
      ensures Holds(hits + [Hit(identity, now)])
      ensures counted == Admitted <==> Earlier(hits, identity, now / 60) < limit
      ensures counted.Spent? ==>
        && 0 < counted.retryAfter <= 60
        && (now + counted.retryAfter) / 60 == now / 60 + 1
        && (now + counted.retryAfter) % 60 == 0
    {
      var window := now / RATE_LIMIT_WINDOW_SECONDS;
      var count := 1 + if (identity, window) in counts then counts[(identity, window)] else 0;
      counts := counts[(identity, window) := count];
      assert (hits + [Hit(identity, now)])[..|hits|] == hits;
      if count > limit {
        return Spent(RATE_LIMIT_WINDOW_SECONDS - now % RATE_LIMIT_WINDOW_SECONDS);
      }
      return Admitted;
    }
  }
}
