/**
 * Rotating refresh tokens: every renewal consumes one token and issues its successor in
 * the same family, a spent token that comes back revokes the family, and expired rows are
 * kept for a grace period so that reuse is still noticed. The pattern is that of section
 * 4.14.2 of RFC 9700.
 */
module RefreshTokens {
  import opened Domain
  import Text

  datatype Token = Token(
    user: string,
    family: string,
    issuedAt: Time,
    expiresAt: Time,
    usedAt: Option<Time>,
    revokedAt: Option<Time>,
    revokedReason: Option<string>)
  {
    /** domain.RefreshToken.Usable. */
    predicate Usable(now: Time) { revokedAt.None? && usedAt.None? && now < expiresAt }
  }

  type Table = map<string, Token>   // by token hash, which is unique

  predicate TokenChecks(t: Token) {
    t.issuedAt < t.expiresAt && (t.revokedAt.Some? ==> t.revokedReason.Some?)
  }

  function NewToken(user: string, family: string, now: Time, expiresAt: Time): Token {
    Token(user, family, now, expiresAt, None, None, None)
  }

  // ------------------------------------------------------------- statements

  function Revoked(t: Token, now: Time, reason: string): Token {
    if t.revokedAt.None? then t.(revokedAt := Some(now), revokedReason := Some(Text.Truncated(reason))) else t
  }

  /** UPDATE ... WHERE family_id = $1 AND revoked_at IS NULL. */
  function RevokeFamily(rows: Table, family: string, now: Time, reason: string): (r: Table)
    ensures r.Keys == rows.Keys
  {
    map h | h in rows :: if rows[h].family == family then Revoked(rows[h], now, reason) else rows[h]
  }

  function RevokeUser(rows: Table, user: string, now: Time, reason: string): (r: Table)
    ensures r.Keys == rows.Keys
  {
    map h | h in rows :: if rows[h].user == user then Revoked(rows[h], now, reason) else rows[h]
  }

  /** One statement: the family is looked up by the presented token inside it. */
  function RevokeByToken(rows: Table, hash: string, now: Time, reason: string): Table {
    if hash in rows then RevokeFamily(rows, rows[hash].family, now, reason) else rows
  }

  predicate Expired(t: Token, now: Time, grace: Time) { t.expiresAt < now - grace }

  datatype Outcome =
    | Issued      // the successor
    | Reused      // ErrTokenReused, after the family was revoked
    | NotFound    // unknown, revoked or expired
    | Refused     // the successor violates a constraint; rolled back

  const REUSE_REASON: string := "refresh token reuse detected"

  /** ConsumeRefreshToken as one transaction. */
  function Consume(rows: Table, presented: string, successor: string, expiresAt: Time, now: Time): (Table, Outcome) {
    if presented !in rows then (rows, NotFound)
    else
      var t := rows[presented];
      if t.usedAt.Some? then (RevokeFamily(rows, t.family, now, REUSE_REASON), Reused)
      else if t.revokedAt.Some? || t.expiresAt < now then (rows, NotFound)
      else if successor in rows || expiresAt <= now then (rows, Refused)
      else
        (rows[presented := t.(usedAt := Some(now))][successor := NewToken(t.user, t.family, now, expiresAt)], Issued)
  }

  class RefreshTokenRepo {
    var rows: Table

    constructor ()
      ensures rows == map[]
    {
      rows := map[];
    }

    method CreateRefreshToken(user: string, hash: string, family: string, expiresAt: Time, now: Time) returns (ok: bool)
      modifies this
      ensures ok <==> hash !in old(rows) && now < expiresAt
      ensures rows == if ok then old(rows)[hash := NewToken(user, family, now, expiresAt)] else old(rows)
    {
      if hash in rows || expiresAt <= now {
        return false;
      }
      rows := rows[hash := NewToken(user, family, now, expiresAt)];
      return true;
    }

    /** Lock the row, detect reuse, otherwise mark it used and issue the successor. */
    method ConsumeRefreshToken(presented: string, successor: string, expiresAt: Time, now: Time) returns (outcome: Outcome)
      modifies this
      ensures (rows, outcome) == Consume(old(rows), presented, successor, expiresAt, now)
      ensures outcome.Issued? ==>
                && presented in old(rows) && rows[presented] == old(rows)[presented].(usedAt := Some(now))
                && rows[successor].user == old(rows)[presented].user && rows[successor].family == old(rows)[presented].family
                && rows[successor].issuedAt == now && rows[successor].expiresAt == expiresAt
                && rows[successor].usedAt.None? && rows[successor].revokedAt.None?
      ensures outcome.NotFound? || outcome.Refused? ==> rows == old(rows)
    {
      if presented !in rows {
        return NotFound;
      }
      var locked := rows[presented];
      if locked.usedAt.Some? {
        // Committed on purpose: the revocation survives the failure reported to the caller.
        rows := RevokeFamily(rows, locked.family, now, REUSE_REASON);
        return Reused;
      }
      if locked.revokedAt.Some? || now > locked.expiresAt {
        return NotFound;
      }
      if successor in rows || expiresAt <= now {
        return Refused;
      }
      rows := rows[presented := locked.(usedAt := Some(now))];
      rows := rows[successor := NewToken(locked.user, locked.family, now, expiresAt)];
      return Issued;
    }

    /** Deletes at most limit rows past expiry and grace; which ones is the scan's choice. */
    method DeleteExpiredRefreshTokens(grace: Time, limit: nat, now: Time) returns (deleted: nat, ghost picked: set<string>)
      modifies this
      ensures forall h :: h in picked ==> h in old(rows) && Expired(old(rows)[h], now, grace)
      ensures deleted == |picked| <= limit
      ensures rows == old(rows) - picked
      ensures deleted < limit ==> forall h :: h in rows ==> !Expired(rows[h], now, grace)
    {
      var waiting := set h | h in rows && Expired(rows[h], now, grace);
      var taken: set<string> := {};
      while |taken| < limit && waiting != {}
        invariant rows == old(rows) && |taken| <= limit
        invariant taken !! waiting
        invariant taken + waiting == set h | h in rows && Expired(rows[h], now, grace)
        decreases waiting
      {
        var h :| h in waiting;
        waiting := waiting - {h};
        taken := taken + {h};
      }
      picked := taken;
      rows := rows - taken;
      deleted := |taken|;
    }
  }

  /** Consume succeeds one instant longer than Usable says: at expiry itself. */
  lemma ConsumeVersusUsable(rows: Table, presented: string, successor: string, expiresAt: Time, now: Time)
    requires presented in rows && successor !in rows && now < expiresAt
    ensures Consume(rows, presented, successor, expiresAt, now).1.Issued? <==>
            || rows[presented].Usable(now)
            || (rows[presented].usedAt.None? && rows[presented].revokedAt.None? && rows[presented].expiresAt == now)
  {}

  // ------------------------------------------------------- the whole system

  /**
   * The table with its history: every hash ever issued, its family and the expiry asked for;
   * who each family logged in; every token exchanged so far, in order, with its expiry; and
   * the families ever revoked.
   */
  datatype System = System(
    now: Time,
    rows: Table,
    issued: map<string, string>,
    exchanged: seq<string>,
    spent: map<string, Time>,
    revoked: set<string>,
    logins: map<string, string>,
    until: map<string, Time>)

  datatype Step =
    | Login(user: string, family: string, hash: string, expires: Time)
    | Refresh(presented: string, successor: string, expires: Time)
    | Logout(token: string)
    | EndFamily(family: string, reason: string)
    | EndUser(user: string, reason: string)
    | PruneExpired(hashes: set<string>)
    | Tick(elapsed: nat)

  /** Fresh hashes and family ids are what crypto/rand and uuid.New are assumed to give. */
  predicate Enabled(s: System, step: Step, grace: Time) {
    match step
    case Login(_, family, hash, expires) =>
      hash !in s.issued && family !in s.issued.Values && s.now < expires
    case Refresh(_, successor, _) => successor !in s.issued
    case PruneExpired(hs) => forall h :: h in hs ==> h in s.rows && Expired(s.rows[h], s.now, grace)
    case _ => true
  }

  function FamiliesOf(rows: Table, user: string): set<string> {
    set h | h in rows && rows[h].user == user :: rows[h].family
  }

  function LiveFamily(rows: Table, family: string): set<string> {
    if exists h :: h in rows && rows[h].family == family then {family} else {}
  }

  function AfterRefresh(s: System, presented: string, successor: string, expires: Time): System {
    var (rows, outcome) := Consume(s.rows, presented, successor, expires, s.now);
    match outcome
    case Issued =>
      s.(rows := rows,
         issued := s.issued[successor := s.rows[presented].family],
         exchanged := s.exchanged + [presented],
         spent := s.spent[presented := s.rows[presented].expiresAt],
         until := s.until[successor := expires])
    case Reused => s.(rows := rows, revoked := s.revoked + {s.rows[presented].family})
    case _ => s
  }

  function Apply(s: System, step: Step): System {
    match step
    case Login(user, family, hash, expires) =>
      s.(rows := s.rows[hash := NewToken(user, family, s.now, expires)], issued := s.issued[hash := family],
         logins := s.logins[family := user], until := s.until[hash := expires])
    case Refresh(presented, successor, expires) => AfterRefresh(s, presented, successor, expires)
    case Logout(token) =>
      if token in s.rows then
        s.(rows := RevokeByToken(s.rows, token, s.now, "signed out"),
           revoked := s.revoked + {s.rows[token].family})
      else s
    case EndFamily(family, reason) =>
      s.(rows := RevokeFamily(s.rows, family, s.now, reason), revoked := s.revoked + LiveFamily(s.rows, family))
    case EndUser(user, reason) =>
      s.(rows := RevokeUser(s.rows, user, s.now, reason), revoked := s.revoked + FamiliesOf(s.rows, user))
    case PruneExpired(hs) => s.(rows := s.rows - hs)
    case Tick(d) => s.(now := s.now + d)
  }

  predicate IsRun(s: System, steps: seq<Step>, grace: Time)
    decreases |steps|
  {
    steps == [] || (Enabled(s, steps[0], grace) && IsRun(Apply(s, steps[0]), steps[1..], grace))
  }

  function Final(s: System, steps: seq<Step>): System
    decreases |steps|
  {
    if steps == [] then s else Final(Apply(s, steps[0]), steps[1..])
  }

  function Initial(now: Time): System { System(now, map[], map[], [], map[], {}, map[], map[]) }

  // -------------------------------------------------------------- invariants

  /** Each family has one user, at most one unused token, and is revoked as a whole or not at all. */
  ghost predicate FamiliesInOrder(s: System) {
    && (forall a, b :: a in s.rows && b in s.rows && s.rows[a].family == s.rows[b].family ==>
          && s.rows[a].user == s.rows[b].user
          && (s.rows[a].usedAt.None? && s.rows[b].usedAt.None? ==> a == b))
    && (forall h :: h in s.rows ==> (s.rows[h].revokedAt.Some? <==> s.rows[h].family in s.revoked))
  }

  ghost predicate RowsKnown(s: System) {
    && (forall h :: h in s.rows ==> h in s.issued && s.issued[h] == s.rows[h].family && TokenChecks(s.rows[h]))
    && (forall f :: f in s.revoked ==> f in s.issued.Values)
  }

  /** A token belongs to the user its family logged in, and expires when it was asked to. */
  ghost predicate RowsAsIssued(s: System) {
    forall h :: h in s.rows ==>
      && s.rows[h].family in s.logins && s.rows[h].user == s.logins[s.rows[h].family]
      && h in s.until && s.rows[h].expiresAt == s.until[h] && s.rows[h].issuedAt <= s.now
  }

  /** Exchanged tokens are marked used for as long as their rows exist, and are all distinct. */
  ghost predicate ExchangesKnown(s: System) {
    && s.spent.Keys == (set h | h in s.exchanged)
    && (forall h :: h in s.spent ==> h in s.issued)
    && (forall h :: h in s.rows ==> (s.rows[h].usedAt.Some? <==> h in s.spent))
    && (forall i, j :: 0 <= i < j < |s.exchanged| ==> s.exchanged[i] != s.exchanged[j])
  }

  /** Within its grace period a spent token's row is still there. */
  ghost predicate SpentKept(s: System, grace: Time) {
    forall h :: h in s.spent && s.now <= s.spent[h] + grace ==>
      h in s.rows && s.rows[h].expiresAt == s.spent[h]
  }

  ghost predicate Inv(s: System, grace: Time) {
    FamiliesInOrder(s) && RowsKnown(s) && RowsAsIssued(s) && ExchangesKnown(s) && SpentKept(s, grace)
  }

  // ------------------------------------------------------- revocation steps

  /** Any statement that revokes whole families and nothing else. */
  ghost predicate RevokesFamilies(s: System, e: System) {
    && e.now == s.now && e.issued == s.issued && e.exchanged == s.exchanged && e.spent == s.spent
    && e.logins == s.logins && e.until == s.until
    && e.rows.Keys == s.rows.Keys
    && (forall h :: h in s.rows ==>
          && e.rows[h] == s.rows[h].(revokedAt := e.rows[h].revokedAt, revokedReason := e.rows[h].revokedReason)
          && (if s.rows[h].family in e.revoked && s.rows[h].family !in s.revoked
              then e.rows[h].revokedAt.Some? && e.rows[h].revokedReason.Some? else e.rows[h] == s.rows[h]))
    && s.revoked <= e.revoked
    && (forall f :: f in e.revoked ==> f in s.revoked || exists h :: h in s.rows && s.rows[h].family == f)
  }

  lemma RevocationKeepsInv(s: System, e: System, grace: Time)
    requires Inv(s, grace) && RevokesFamilies(s, e)
    ensures Inv(e, grace)
  {
    forall f | f in e.revoked ensures f in e.issued.Values {
      if f !in s.revoked {
        var h :| h in s.rows && s.rows[h].family == f;
        assert s.issued[h] == f;
      }
    }
  }

  lemma FamilyRevocation(s: System, family: string, reason: string, grace: Time)
    requires Inv(s, grace) && exists h :: h in s.rows && s.rows[h].family == family
    ensures RevokesFamilies(s, s.(rows := RevokeFamily(s.rows, family, s.now, reason), revoked := s.revoked + {family}))
  {}

  lemma UserRevocation(s: System, user: string, reason: string, grace: Time)
    requires Inv(s, grace)
    ensures RevokesFamilies(s, s.(rows := RevokeUser(s.rows, user, s.now, reason), revoked := s.revoked + FamiliesOf(s.rows, user)))
  {
    var e := s.(rows := RevokeUser(s.rows, user, s.now, reason), revoked := s.revoked + FamiliesOf(s.rows, user));
    forall h | h in s.rows && s.rows[h].family in FamiliesOf(s.rows, user)
      ensures s.rows[h].user == user
    {
      var g :| g in s.rows && s.rows[g].user == user && s.rows[g].family == s.rows[h].family;
    }
  }

  lemma NoRevocation(s: System, family: string, reason: string)
    requires !exists h :: h in s.rows && s.rows[h].family == family
    ensures RevokeFamily(s.rows, family, s.now, reason) == s.rows
  {}

  // ------------------------------------------------------------ every step

  /** The state after a successful exchange. */
  function Exchanged(s: System, presented: string, successor: string, expires: Time): System
    requires presented in s.rows
  {
    var t := s.rows[presented];
    s.(rows := s.rows[presented := t.(usedAt := Some(s.now))][successor := NewToken(t.user, t.family, s.now, expires)],
       issued := s.issued[successor := t.family],
       exchanged := s.exchanged + [presented],
       spent := s.spent[presented := t.expiresAt],
       until := s.until[successor := expires])
  }

  ghost predicate CanExchange(s: System, presented: string, successor: string, expires: Time, grace: Time) {
    && Inv(s, grace) && successor !in s.issued && presented in s.rows
    && s.rows[presented].usedAt.None? && s.rows[presented].revokedAt.None? && s.now < expires
  }

  lemma ExchangeKeepsFamilies(s: System, presented: string, successor: string, expires: Time, grace: Time)
    requires CanExchange(s, presented, successor, expires, grace)
    ensures FamiliesInOrder(Exchanged(s, presented, successor, expires))
  {
    assert successor !in s.rows;
  }

  lemma IssuedStay(s: System, hash: string, family: string)
    requires hash !in s.issued
    ensures forall f :: f in s.issued.Values ==> f in s.issued[hash := family].Values
  {
    forall f | f in s.issued.Values ensures f in s.issued[hash := family].Values {
      var h :| h in s.issued && s.issued[h] == f;
      assert s.issued[hash := family][h] == f;
    }
  }

  lemma ExchangeKeepsExchanges(s: System, presented: string, successor: string, expires: Time, grace: Time)
    requires CanExchange(s, presented, successor, expires, grace)
    ensures ExchangesKnown(Exchanged(s, presented, successor, expires))
    ensures SpentKept(Exchanged(s, presented, successor, expires), grace)
  {
    var e := Exchanged(s, presented, successor, expires);
    assert presented !in s.exchanged && successor !in s.spent && presented != successor;
    assert e.spent.Keys == set h | h in e.exchanged;
  }

  lemma ExchangeKeepsKnown(s: System, presented: string, successor: string, expires: Time, grace: Time)
    requires CanExchange(s, presented, successor, expires, grace)
    ensures RowsKnown(Exchanged(s, presented, successor, expires))
  {
    IssuedStay(s, successor, s.rows[presented].family);
  }

  lemma ExchangeKeepsAsIssued(s: System, presented: string, successor: string, expires: Time, grace: Time)
    requires CanExchange(s, presented, successor, expires, grace)
    ensures RowsAsIssued(Exchanged(s, presented, successor, expires))
  {}

  lemma ExchangeKeepsInv(s: System, presented: string, successor: string, expires: Time, grace: Time)
    requires Inv(s, grace) && successor !in s.issued
    requires Consume(s.rows, presented, successor, expires, s.now).1.Issued?
    ensures Inv(AfterRefresh(s, presented, successor, expires), grace)
  {
    assert AfterRefresh(s, presented, successor, expires) == Exchanged(s, presented, successor, expires);
    ExchangeKeepsFamilies(s, presented, successor, expires, grace);
    ExchangeKeepsKnown(s, presented, successor, expires, grace);
    ExchangeKeepsAsIssued(s, presented, successor, expires, grace);
    ExchangeKeepsExchanges(s, presented, successor, expires, grace);
  }

  /** A login's family is new: no row belongs to it yet. */
  lemma FamilyIsNew(s: System, step: Step, grace: Time)
    requires Inv(s, grace) && step.Login? && Enabled(s, step, grace)
    ensures step.hash !in s.rows && step.hash !in s.spent && step.family !in s.revoked
    ensures forall h :: h in s.rows ==> s.rows[h].family != step.family
  {
    forall h | h in s.rows ensures s.rows[h].family != step.family {
      assert s.issued[h] == s.rows[h].family;
    }
  }

  lemma LoginKeepsFamilies(s: System, step: Step, grace: Time)
    requires Inv(s, grace) && step.Login? && Enabled(s, step, grace)
    ensures FamiliesInOrder(Apply(s, step)) && RowsAsIssued(Apply(s, step))
  {
    FamilyIsNew(s, step, grace);
  }

  lemma LoginKeepsInv(s: System, step: Step, grace: Time)
    requires Inv(s, grace) && step.Login? && Enabled(s, step, grace)
    ensures Inv(Apply(s, step), grace)
  {
    FamilyIsNew(s, step, grace);
    LoginKeepsFamilies(s, step, grace);
    IssuedStay(s, step.hash, step.family);
  }

  lemma RefreshKeepsInv(s: System, presented: string, successor: string, expires: Time, grace: Time)
    requires Inv(s, grace) && successor !in s.issued
    ensures Inv(AfterRefresh(s, presented, successor, expires), grace)
  {
    var outcome := Consume(s.rows, presented, successor, expires, s.now).1;
    if outcome.Issued? {
      ExchangeKeepsInv(s, presented, successor, expires, grace);
    } else if outcome.Reused? {
      FamilyRevocation(s, s.rows[presented].family, REUSE_REASON, grace);
      RevocationKeepsInv(s, AfterRefresh(s, presented, successor, expires), grace);
    }
  }

  lemma SignOutKeepsInv(s: System, step: Step, grace: Time)
    requires Inv(s, grace) && (step.Logout? || step.EndFamily? || step.EndUser?)
    ensures Inv(Apply(s, step), grace)
  {
    match step
    case Logout(token) =>
      if token in s.rows {
        FamilyRevocation(s, s.rows[token].family, "signed out", grace);
        RevocationKeepsInv(s, Apply(s, step), grace);
      }
    case EndFamily(family, reason) =>
      if exists h :: h in s.rows && s.rows[h].family == family {
        FamilyRevocation(s, family, reason, grace);
        RevocationKeepsInv(s, Apply(s, step), grace);
      } else {
        NoRevocation(s, family, reason);
        assert Apply(s, step) == s;
      }
    case EndUser(user, reason) =>
      UserRevocation(s, user, reason, grace);
      RevocationKeepsInv(s, Apply(s, step), grace);
  }

  lemma StepKeepsInv(s: System, step: Step, grace: Time)
    requires Inv(s, grace) && Enabled(s, step, grace)
    ensures Inv(Apply(s, step), grace)
  {
    match step
    case Login(_, _, _, _) => LoginKeepsInv(s, step, grace);
    case Refresh(presented, successor, expires) => RefreshKeepsInv(s, presented, successor, expires, grace);
    case PruneExpired(hs) => PruneKeepsInv(s, hs, grace);
    case Tick(_) =>
    case _ => SignOutKeepsInv(s, step, grace);
  }

  lemma PruneKeepsInv(s: System, hs: set<string>, grace: Time)
    requires Inv(s, grace) && Enabled(s, PruneExpired(hs), grace)
    ensures Inv(s.(rows := s.rows - hs), grace)
  {}

  /**
   * In every reachable state each family has one user, the one it logged in, and at most one
   * unused token and is wholly revoked or wholly not; each token expires when it was asked to;
   * and no token hash has been exchanged twice.
   */
  lemma {:induction false} RotationInvariant(s: System, steps: seq<Step>, grace: Time)
    requires Inv(s, grace) && IsRun(s, steps, grace)
    ensures Inv(Final(s, steps), grace)
    decreases |steps|
  {
    if steps != [] {
      StepKeepsInv(s, steps[0], grace);
      RotationInvariant(Apply(s, steps[0]), steps[1..], grace);
    }
  }

  lemma InitiallyInOrder(start: Time, grace: Time)
    ensures Inv(Initial(start), grace)
  {}

  // -------------------------------------------------- revoked means finished

  /** Hashes ever issued into a family. */
  ghost function IssuedInto(s: System, family: string): set<string> {
    set h | h in s.issued && s.issued[h] == family
  }

  lemma StepIssuesNothing(s: System, step: Step, grace: Time, family: string)
    requires Inv(s, grace) && Enabled(s, step, grace) && family in s.revoked
    ensures family in Apply(s, step).revoked
    ensures IssuedInto(Apply(s, step), family) == IssuedInto(s, family)
  {}

  /** A revoked family never again yields a successor, however the run goes on. */
  lemma {:induction false} RevokedFamilyIsFinished(s: System, steps: seq<Step>, grace: Time, family: string)
    requires Inv(s, grace) && IsRun(s, steps, grace) && family in s.revoked
    ensures family in Final(s, steps).revoked
    ensures IssuedInto(Final(s, steps), family) == IssuedInto(s, family)
    decreases |steps|
  {
    if steps != [] {
      StepKeepsInv(s, steps[0], grace);
      StepIssuesNothing(s, steps[0], grace, family);
      RevokedFamilyIsFinished(Apply(s, steps[0]), steps[1..], grace, family);
    }
  }

  // ------------------------------------------------ signing out, on the rows

  /** The three ways to sign out, and the rows each must reach. */
  predicate SignsOut(rows: Table, step: Step, h: string)
    requires h in rows
  {
    match step
    case Logout(token) => token in rows && rows[h].family == rows[token].family
    case EndFamily(family, _) => rows[h].family == family
    case EndUser(user, _) => rows[h].user == user
    case _ => false
  }

  predicate IsSignOut(step: Step) { step.Logout? || step.EndFamily? || step.EndUser? }

  /** Revoked, if it was not before, at this instant; otherwise as it was. */
  predicate NowRevoked(t: Token, t': Token, now: Time) {
    && t'.revokedAt.Some? && t'.revokedReason.Some?
    && t' == t.(revokedAt := t'.revokedAt, revokedReason := t'.revokedReason)
    && (t.revokedAt.None? ==> t'.revokedAt == Some(now))
    && (t.revokedAt.Some? ==> t' == t)
  }

  /**
   * In every reachable state signing out revokes every row it must reach - the whole family of
   * the presented token, the named family, all of the user's families - and changes no other.
   */
  lemma SignOutRevokesExactly(start: Time, steps: seq<Step>, grace: Time, step: Step, h: string)
    requires IsRun(Initial(start), steps, grace) && IsSignOut(step) && h in Final(Initial(start), steps).rows
    ensures var s := Final(Initial(start), steps);
            var e := Apply(s, step);
            && e.rows.Keys == s.rows.Keys
            && if SignsOut(s.rows, step, h) then NowRevoked(s.rows[h], e.rows[h], s.now) else e.rows[h] == s.rows[h]
  {
    InitiallyInOrder(start, grace);
    RotationInvariant(Initial(start), steps, grace);
  }

  /** A family with a revoked row is finished: whatever follows, none of its tokens is exchanged. */
  lemma {:induction false} RevokedRowEndsFamily(s: System, more: seq<Step>, grace: Time, h: string, presented: string, successor: string, expires: Time)
    requires Inv(s, grace) && IsRun(s, more, grace) && h in s.rows && s.rows[h].revokedAt.Some?
    ensures var e := Final(s, more);
            presented in e.issued && e.issued[presented] == s.rows[h].family ==>
              !Consume(e.rows, presented, successor, expires, e.now).1.Issued?
  {
    RevokedFamilyIsFinished(s, more, grace, s.rows[h].family);
    RotationInvariant(s, more, grace);
  }

  /**
   * Signing out is for good. After a logout, a family's or a user's revocation reached some
   * token's row, no later run exchanges any token of its family.
   */
  lemma SignedOutForGood(start: Time, steps: seq<Step>, grace: Time, step: Step, h: string, more: seq<Step>,
                         presented: string, successor: string, expires: Time)
    requires IsRun(Initial(start), steps, grace) && IsSignOut(step)
    requires var s := Final(Initial(start), steps);
             h in s.rows && SignsOut(s.rows, step, h) && IsRun(Apply(s, step), more, grace)
    ensures var s := Final(Initial(start), steps);
            var e := Final(Apply(s, step), more);
            presented in e.issued && e.issued[presented] == s.rows[h].family ==>
              !Consume(e.rows, presented, successor, expires, e.now).1.Issued?
  {
    var s := Final(Initial(start), steps);
    InitiallyInOrder(start, grace);
    RotationInvariant(Initial(start), steps, grace);
    StepKeepsInv(s, step, grace);
    SignOutRevokesExactly(start, steps, grace, step, h);
    RevokedRowEndsFamily(Apply(s, step), more, grace, h, presented, successor, expires);
  }

  // ------------------------------------------------------------------ pruning

  /** A hash is never issued twice, so a token whose row is gone stays gone. */
  lemma {:induction false} GoneStaysGone(s: System, more: seq<Step>, grace: Time, h: string)
    requires IsRun(s, more, grace) && h in s.issued && h !in s.rows
    ensures h !in Final(s, more).rows
    decreases |more|
  {
    if more != [] {
      GoneStaysGone(Apply(s, more[0]), more[1..], grace, h);
    }
  }

  /**
   * Pruning deletes exactly the expired rows it picked. A pruned token is unknown from then
   * on: presenting it finds nothing and changes nothing, in every run.
   */
  lemma PrunedIsForgotten(s: System, hs: set<string>, grace: Time, more: seq<Step>, h: string, successor: string, expires: Time)
    requires Inv(s, grace) && Enabled(s, PruneExpired(hs), grace) && IsRun(Apply(s, PruneExpired(hs)), more, grace)
    ensures var p := Apply(s, PruneExpired(hs));
            && (forall x :: x in p.rows <==> x in s.rows && x !in hs)
            && (forall x :: x in p.rows ==> p.rows[x] == s.rows[x])
            && var e := Final(p, more);
               h in hs ==> Consume(e.rows, h, successor, expires, e.now) == (e.rows, NotFound)
  {
    if h in hs {
      GoneStaysGone(Apply(s, PruneExpired(hs)), more, grace, h);
    }
  }

  // --------------------------------------------------------- reuse in grace

  /**
   * In every reachable state, a token exchanged at any point of the run and presented again
   * no later than its expiry plus the grace period is reported as reuse; its whole family
   * ends revoked, and no row of any other family changes.
   */
  lemma ReuseWithinGrace(start: Time, steps: seq<Step>, grace: Time, presented: string, successor: string, expires: Time)
    requires IsRun(Initial(start), steps, grace)
    requires var s := Final(Initial(start), steps);
             presented in s.spent && s.now <= s.spent[presented] + grace
    ensures var s := Final(Initial(start), steps);
            && presented in s.rows
            && var (rows, outcome) := Consume(s.rows, presented, successor, expires, s.now);
               && outcome == Reused && rows.Keys == s.rows.Keys
               && (forall h :: h in rows && rows[h].family == s.rows[presented].family ==> rows[h].revokedAt.Some?)
               && (forall h :: h in rows && rows[h].family != s.rows[presented].family ==> rows[h] == s.rows[h])
  {
    InitiallyInOrder(start, grace);
    RotationInvariant(Initial(start), steps, grace);
  }
}
