/**
 * Provider account trust: slow probes that commit later against an
 * operator-approved account, racing operator logins, policy changes and resets.
 *
 * One state mutation is one atomic step. What a probe or a capture read before
 * its mutation arrives with the event: any account, any verdict and any
 * attestation, however long ago it was read and whatever happened since.
 * Expiry is a choice of the event too: a login may be found expired at any time.
 */
module AccountTrust {
  import opened Prelude

  datatype Provider = OpenAI | Claude

  datatype Status = Loading | Active | AwaitingLogin | Failing | Deactivated

  /** The stored provider account. `approved` is the operator's approval or the server's attestation. */
  datatype Row = Row(id: Option<string>, hash: Option<string>, approved: bool)

  /** A pending login. A completed Claude login names the token that it produced. */
  datatype Login = Login(id: string, completed: bool, hash: Option<string>)

  /** What the network proxy compares requests with. */
  datatype Pin = Pin(id: Option<string>, hash: Option<string>)

  /** One runtime's records. `directory` is the provider's own: the account of each token. */
  datatype Trust = Trust(
    provider: Provider, enabled: bool, status: Status, row: Row, login: Option<Login>, pin: Pin,
    deviceLogins: set<string>, directory: map<string, string>)

  const NO_ROW := Row(None, None, false)
  const NO_PIN := Pin(None, None)

  /** Agent-side credentials as a probe reads them, and the provider's answer about a token. */
  datatype Probed = Probed(id: Option<string>, hash: Option<string>)
  datatype Attestation = Attestation(hash: Option<string>, uuid: Option<string>)
  datatype Report = Report(status: Status, account: Option<Probed>, attested: Option<Attestation>)

  datatype Distrust = NotApproved | Untrusted

  // ---------------------------------------------------------------------------
  // Trust decisions

  function AnchorId(r: Row): Option<string> {
    if r.approved then r.id else None
  }

  predicate Anchored(r: Row) {
    AnchorId(r).Some?
  }

  function TrustedOpenAI(r: Row, account: Probed): Result<Row, Distrust> {
    if account.id.None? then Error(Untrusted)
    else if !Anchored(r) then Error(NotApproved)
    else if account.id != AnchorId(r) then Error(Untrusted)
    else Ok(Row(account.id, account.hash, true))
  }

  /** A first capture needs a completed login that names this very token. */
  predicate FirstCaptureApproved(login: Option<Login>, hash: string) {
    login.Some? && login.value.completed && login.value.hash == Some(hash)
  }

  function TrustedClaude(r: Row, login: Option<Login>, account: Probed, attested: Option<Attestation>): Result<Row, Distrust> {
    if account.hash.None? then Error(Untrusted)
    else if Anchored(r) && r.hash == account.hash then Ok(Row(r.id, account.hash, true))
    else if !Anchored(r) && !FirstCaptureApproved(login, account.hash.value) then Error(NotApproved)
    else if attested.None? || attested.value.hash != account.hash || attested.value.uuid.None? then Error(Untrusted)
    else if Anchored(r) && attested.value.uuid != AnchorId(r) then Error(Untrusted)
    else Ok(Row(attested.value.uuid, account.hash, true))
  }

  function TrustedAccount(s: Trust, login: Option<Login>, report: Report): Result<Row, Distrust> {
    if report.account.None? then Error(Untrusted)
    else if s.provider.OpenAI? then TrustedOpenAI(s.row, report.account.value)
    else TrustedClaude(s.row, login, report.account.value, report.attested)
  }

  function PinOf(provider: Provider, r: Row): Pin {
    Pin(r.id, if provider.OpenAI? then None else r.hash)
  }

  // ---------------------------------------------------------------------------
  // Steps

  datatype Event =
    | SetPolicy(enabled: bool)
    | Deactivate
    | RecordLogin(id: string)
    | CompleteLogin(hash: Option<string>, expired: bool)
    | ClearLogin
    | FinishDeviceLogin(id: string)
    | Capture(loginId: string, accountId: string, expired: bool)
    | Commit(report: Report, expired: bool)
    | Reset
    | Restart

  /** Attestations are the provider's; an account id is captured only for a device login that finished. */
  predicate Enabled(s: Trust, e: Event) {
    match e
    case CompleteLogin(_, _) => s.provider.Claude?
    case FinishDeviceLogin(_) => s.provider.OpenAI?
    case Capture(loginId, _, _) => s.provider.OpenAI? && loginId in s.deviceLogins
    case Commit(report, _) =>
      report.attested.Some? && report.attested.value.hash.Some? && report.attested.value.uuid.Some? ==>
        && report.attested.value.hash.value in s.directory
        && report.attested.value.uuid.value == s.directory[report.attested.value.hash.value]
    case _ => true
  }

  /** A login as a mutation reads it: an expired one is removed. */
  function CurrentLogin(s: Trust, expired: bool): Option<Login> {
    if expired then None else s.login
  }

  function DeactivateStep(s: Trust): Trust {
    s.(status := Deactivated, login := None, pin := NO_PIN)
  }

  function RecordStep(s: Trust, id: string): Trust {
    if s.enabled && (s.status.AwaitingLogin? || s.status.Failing?) then s.(login := Some(Login(id, false, None))) else s
  }

  function CompleteStep(s: Trust, hash: Option<string>, expired: bool): Trust {
    match CurrentLogin(s, expired)
    case None => s.(login := None)
    case Some(login) =>
      s.(login := Some(login.(completed := true, hash := if hash.Some? then hash else login.hash)))
  }

  /** The first OpenAI anchor: for the pending login only, and only while there is no anchor. */
  function CaptureStep(s: Trust, loginId: string, accountId: string, expired: bool): Trust {
    if Anchored(s.row) then s
    else
      match CurrentLogin(s, expired)
      case None => s.(login := None)
      case Some(login) =>
        if login.id != loginId then s
        else s.(login := Some(login.(completed := true)), row := Row(Some(accountId), None, true))
  }

  /** The commit of a probe: trust check, anchor and pin in one mutation. */
  function CommitStep(s: Trust, report: Report, expired: bool): Trust {
    if !s.enabled then DeactivateStep(s)
    else if !report.status.Active? then s.(status := report.status, pin := NO_PIN)
    else
      var readsLogin := s.provider.Claude? && report.account.Some? && report.account.value.hash.Some? && !Anchored(s.row);
      var login := if readsLogin then CurrentLogin(s, expired) else s.login;
      match TrustedAccount(s, login, report)
      case Error(NotApproved) => s.(status := AwaitingLogin, login := login, pin := NO_PIN)
      case Error(Untrusted) => s.(status := Failing, login := login, pin := NO_PIN)
      case Ok(row) => s.(status := Active, login := None, row := row, pin := PinOf(s.provider, row))
  }

  function Step(s: Trust, e: Event): Trust
    requires Enabled(s, e)
  {
    match e
    case SetPolicy(enabled) => s.(enabled := enabled)
    case Deactivate => DeactivateStep(s)
    case RecordLogin(id) => RecordStep(s, id)
    case CompleteLogin(hash, expired) => CompleteStep(s, hash, expired)
    case ClearLogin => s.(login := None)
    case FinishDeviceLogin(id) => s.(deviceLogins := s.deviceLogins + {id})
    case Capture(loginId, accountId, expired) => CaptureStep(s, loginId, accountId, expired)
    case Commit(report, expired) => CommitStep(s, report, expired)
    case Reset => s.(status := if s.enabled then AwaitingLogin else Deactivated, login := None, row := NO_ROW, pin := NO_PIN)
    case Restart => s.(status := Loading)
  }

  // ---------------------------------------------------------------------------
  // The invariant

  /** A published pin agrees with the stored approved anchor. */
  predicate PinOk(s: Trust) {
    s.pin.id.Some? ==> s.row.approved && s.pin == PinOf(s.provider, s.row)
  }

  /** Nothing is pinned by token alone. */
  predicate NoHalfPin(s: Trust) {
    s.pin.id.None? ==> s.pin.hash.None?
  }

  /** A stored Claude anchor is the account that the provider reports for its token. */
  predicate AttestedOk(s: Trust) {
    s.provider.Claude? && Anchored(s.row) ==>
      s.row.hash.Some? && s.row.hash.value in s.directory && s.row.id == Some(s.directory[s.row.hash.value])
  }

  predicate TrustInv(s: Trust) {
    PinOk(s) && NoHalfPin(s) && AttestedOk(s)
  }

  lemma StepKeepsTrustInv(s: Trust, e: Event)
    requires TrustInv(s) && Enabled(s, e)
    ensures TrustInv(Step(s, e))
  {
  }

  /** An approved anchor keeps its id in every step but a reset. */
  lemma StepKeepsAnchor(s: Trust, e: Event)
    requires Enabled(s, e) && Anchored(s.row) && !e.Reset?
    ensures AnchorId(Step(s, e).row) == AnchorId(s.row)
  {
  }

  /** The database's own guard: an anchored row keeps its account and its approval, or is cleared. */
  predicate GuardAllows(a: Row, b: Row) {
    Anchored(a) ==> b.id.None? || (b.id == a.id && b.approved)
  }

  /** No step of the engine is ever refused by the guard. */
  lemma GuardNeverRefuses(s: Trust, e: Event)
    requires Enabled(s, e)
    ensures GuardAllows(s.row, Step(s, e).row)
  {
    if Anchored(s.row) && !e.Reset? {
      StepKeepsAnchor(s, e);
    }
  }

  // ---------------------------------------------------------------------------
  // Runs

  /** A run from a fresh host: no account, no login, no pin. */
  ghost predicate Execution(states: seq<Trust>, events: seq<Event>) {
    && |states| == |events| + 1
    && states[0].row == NO_ROW && states[0].login.None? && states[0].pin == NO_PIN
    && forall i :: 0 <= i < |events| ==> Enabled(states[i], events[i]) && states[i + 1] == Step(states[i], events[i])
  }

  lemma {:induction false} ReachableTrust(states: seq<Trust>, events: seq<Event>, i: nat)
    requires Execution(states, events) && i < |states|
    ensures TrustInv(states[i])
  {
    if i > 0 {
      ReachableTrust(states, events, i - 1);
      StepKeepsTrustInv(states[i - 1], events[i - 1]);
      assert states[i - 1 + 1] == Step(states[i - 1], events[i - 1]);
    }
  }

  /** In every reachable state a pin agrees with an approved anchor: the account and, for Claude, the token. */
  lemma PinAgreesWithAnchor(states: seq<Trust>, events: seq<Event>, i: nat)
    requires Execution(states, events) && i < |states| && states[i].pin != NO_PIN
    ensures Anchored(states[i].row) && states[i].pin.id == AnchorId(states[i].row)
    ensures states[i].provider.Claude? ==> states[i].pin.hash == states[i].row.hash
    ensures states[i].provider.Claude? ==>
      states[i].row.hash.Some? && states[i].row.hash.value in states[i].directory
      && states[i].row.id == Some(states[i].directory[states[i].row.hash.value])
  {
    ReachableTrust(states, events, i);
  }

  /** Between two states without a reset the anchor's account stays. */
  lemma {:induction false} AnchorChangesOnlyByReset(states: seq<Trust>, events: seq<Event>, i: nat, j: nat)
    requires Execution(states, events) && i <= j < |states| && Anchored(states[i].row)
    requires forall k :: i <= k < j ==> !events[k].Reset?
    ensures AnchorId(states[j].row) == AnchorId(states[i].row)
    decreases j
  {
    if i < j {
      AnchorChangesOnlyByReset(states, events, i, j - 1);
      StepKeepsAnchor(states[j - 1], events[j - 1]);
      assert states[j - 1 + 1] == Step(states[j - 1], events[j - 1]);
    }
  }

  // ---------------------------------------------------------------------------
  // Resets

  /** A login was recorded at step `a`. */
  predicate Records(s: Trust, e: Event) {
    e.RecordLogin? && s.enabled && (s.status.AwaitingLogin? || s.status.Failing?)
  }

  /** The pending login is completed: by the operator's code, or by a finished device login. */
  predicate Completes(s: Trust, e: Event) {
    s.login.Some?
    && ((e.CompleteLogin? && !e.expired)
        || (e.Capture? && !e.expired && !Anchored(s.row) && e.loginId == s.login.value.id && e.loginId in s.deviceLogins))
  }

  predicate HoldsAccount(s: Trust) {
    Anchored(s.row) || s.pin.id.Some?
  }

  /** The login that is pending after step `j` was recorded at step `a`. */
  ghost predicate PendingSince(states: seq<Trust>, events: seq<Event>, a: nat, j: nat)
    requires Execution(states, events) && j < |states|
  {
    a < j && Records(states[a], events[a]) && states[j].login.Some? && states[j].login.value.id == events[a].id
  }

  /** The login that is pending after step `j` was recorded after step `r`. */
  ghost predicate PendingAfter(states: seq<Trust>, events: seq<Event>, r: nat, j: nat)
    requires Execution(states, events) && j < |states|
  {
    exists a :: r < a && PendingSince(states, events, a, j)
  }

  /** A login recorded at step `a` was completed at step `b`. */
  ghost predicate CompletedAt(states: seq<Trust>, events: seq<Event>, a: nat, b: nat)
    requires Execution(states, events)
  {
    b < |events| && PendingSince(states, events, a, b) && Completes(states[b], events[b])
  }

  /** Where a pending login comes from. */
  lemma LoginOrigin(s: Trust, e: Event)
    requires Enabled(s, e) && Step(s, e).login.Some?
    ensures (Records(s, e) && Step(s, e).login.value.id == e.id)
         || (s.login.Some? && s.login.value.id == Step(s, e).login.value.id)
    ensures Step(s, e).login.value.completed ==> Completes(s, e) || (s.login.Some? && s.login.value.completed)
  {
  }

  /** An account appears only where a login has been completed. */
  lemma AccountOrigin(s: Trust, e: Event)
    requires Enabled(s, e) && PinOk(s) && HoldsAccount(Step(s, e)) && !HoldsAccount(s)
    ensures s.login.Some? && (s.login.value.completed || Completes(s, e))
  {
  }

  /** What holds after a reset at step `r`: nothing is pending, completed or held without a later login. */
  ghost predicate SinceReset(states: seq<Trust>, events: seq<Event>, r: nat, j: nat)
    requires Execution(states, events) && r < j < |states|
  {
    && (states[j].login.Some? ==> PendingAfter(states, events, r, j))
    && (HoldsAccount(states[j]) || (states[j].login.Some? && states[j].login.value.completed)
        ==> exists a, b :: r < a < b < j && CompletedAt(states, events, a, b))
  }

  lemma PendingCarriesOver(states: seq<Trust>, events: seq<Event>, r: nat, j: nat)
    requires Execution(states, events) && r < j < |events| && SinceReset(states, events, r, j)
    requires states[j + 1].login.Some?
    ensures PendingAfter(states, events, r, j + 1)
  {
    var s, e := states[j], events[j];
    LoginOrigin(s, e);
    if Records(s, e) && states[j + 1].login.value.id == e.id {
      assert PendingSince(states, events, j, j + 1);
    } else {
      var a :| r < a && PendingSince(states, events, a, j);
      assert PendingSince(states, events, a, j + 1);
    }
  }

  lemma CompletionCarriesOver(states: seq<Trust>, events: seq<Event>, r: nat, j: nat)
    requires Execution(states, events) && r < j < |events| && SinceReset(states, events, r, j)
    requires HoldsAccount(states[j]) || (states[j].login.Some? && (states[j].login.value.completed || Completes(states[j], events[j])))
    ensures exists a, b :: r < a < b < j + 1 && CompletedAt(states, events, a, b)
  {
    if HoldsAccount(states[j]) || states[j].login.value.completed {
      var a, b :| r < a < b < j && CompletedAt(states, events, a, b);
      assert r < a < b < j + 1;
    } else {
      var a :| r < a && PendingSince(states, events, a, j);
      assert CompletedAt(states, events, a, j);
    }
  }

  lemma StepSinceReset(states: seq<Trust>, events: seq<Event>, r: nat, j: nat)
    requires Execution(states, events) && r < j < |events| && SinceReset(states, events, r, j)
    ensures SinceReset(states, events, r, j + 1)
  {
    var s, e := states[j], events[j];
    ReachableTrust(states, events, j);
    assert states[j + 1] == Step(s, e);
    if states[j + 1].login.Some? {
      PendingCarriesOver(states, events, r, j);
      LoginOrigin(s, e);
      if states[j + 1].login.value.completed {
        CompletionCarriesOver(states, events, r, j);
      }
    }
    if HoldsAccount(states[j + 1]) {
      if !HoldsAccount(s) {
        AccountOrigin(s, e);
      }
      CompletionCarriesOver(states, events, r, j);
    }
  }

  lemma {:induction false} SinceResetHolds(states: seq<Trust>, events: seq<Event>, r: nat, j: nat)
    requires Execution(states, events) && r < j < |states| && events[r].Reset?
    ensures SinceReset(states, events, r, j)
    decreases j
  {
    if j == r + 1 {
      assert states[r + 1] == Step(states[r], events[r]);
    } else {
      SinceResetHolds(states, events, r, j - 1);
      StepSinceReset(states, events, r, j - 1);
    }
  }

  /**
   * After a reset neither anchor nor pin comes back, whatever probes had read before it,
   * unless a login was recorded after the reset and completed later still.
   */
  lemma NothingRestoredWithoutANewLogin(states: seq<Trust>, events: seq<Event>, r: nat, j: nat)
    requires Execution(states, events) && r < j < |states| && events[r].Reset?
    requires Anchored(states[j].row) || states[j].pin != NO_PIN
    ensures exists a, b :: r < a < b < j && CompletedAt(states, events, a, b)
  {
    ReachableTrust(states, events, j);
    SinceResetHolds(states, events, r, j);
  }

  // ---------------------------------------------------------------------------
  // Where an anchor comes from

  ghost predicate NoResetSince(events: seq<Event>, a: nat, j: nat)
    requires j <= |events|
  {
    forall k :: a <= k < j ==> !events[k].Reset?
  }

  /**
   * A login recorded at step `a` and completed at step `b` is one for account
   * `id`: its capture named that account, or it named a token of that account.
   */
  ghost predicate LoginFor(states: seq<Trust>, events: seq<Event>, a: nat, b: nat, id: Option<string>)
    requires Execution(states, events)
  {
    && CompletedAt(states, events, a, b)
    && if states[b].provider.OpenAI? then events[b].Capture? && id == Some(events[b].accountId)
       else
         && events[b].CompleteLogin? && events[b].hash.Some? && events[b].hash.value in states[b].directory
         && id == Some(states[b].directory[events[b].hash.value])
  }

  /** The token that the pending login names was named when a login was completed. */
  ghost predicate TokenNamedAt(states: seq<Trust>, events: seq<Event>, a: nat, b: nat, hash: Option<string>)
    requires Execution(states, events)
  {
    CompletedAt(states, events, a, b) && events[b].CompleteLogin? && events[b].hash == hash
  }

  ghost predicate LoginTraced(states: seq<Trust>, events: seq<Event>, j: nat)
    requires Execution(states, events) && j < |states|
  {
    states[j].login.Some? ==> exists a: nat :: PendingSince(states, events, a, j) && NoResetSince(events, a, j)
  }

  ghost predicate TokenTraced(states: seq<Trust>, events: seq<Event>, j: nat)
    requires Execution(states, events) && j < |states|
  {
    states[j].login.Some? && states[j].login.value.hash.Some? ==>
      exists a: nat, b: nat :: a < b < j && TokenNamedAt(states, events, a, b, states[j].login.value.hash) && NoResetSince(events, a, j)
  }

  ghost predicate AnchorTraced(states: seq<Trust>, events: seq<Event>, j: nat)
    requires Execution(states, events) && j < |states|
  {
    Anchored(states[j].row) ==>
      exists a: nat, b: nat :: a < b < j && LoginFor(states, events, a, b, AnchorId(states[j].row)) && NoResetSince(events, a, j)
  }

  /** Where the token of a pending login comes from. */
  lemma TokenOrigin(s: Trust, e: Event)
    requires Enabled(s, e) && Step(s, e).login.Some? && Step(s, e).login.value.hash.Some?
    ensures !e.Reset? && s.login.Some?
    ensures s.login.value.hash == Step(s, e).login.value.hash
         || (Completes(s, e) && e.CompleteLogin? && e.hash == Step(s, e).login.value.hash)
  {
  }

  /** Where a new anchor comes from: the capture of a login, or a token that a completed login names. */
  lemma AnchorOrigin(s: Trust, e: Event)
    requires Enabled(s, e) && Anchored(Step(s, e).row) && !Anchored(s.row)
    ensures !e.Reset? && s.login.Some?
    ensures s.provider.OpenAI? ==> Completes(s, e) && e.Capture? && Step(s, e).row.id == Some(e.accountId)
    ensures s.provider.Claude? ==>
      && s.login.value.hash.Some? && s.login.value.hash.value in s.directory
      && Step(s, e).row.id == Some(s.directory[s.login.value.hash.value])
  {
  }

  lemma LoginStaysTraced(states: seq<Trust>, events: seq<Event>, j: nat)
    requires Execution(states, events) && j < |events| && LoginTraced(states, events, j)
    ensures LoginTraced(states, events, j + 1)
  {
    var s, e := states[j], events[j];
    if states[j + 1].login.Some? {
      LoginOrigin(s, e);
      if Records(s, e) && states[j + 1].login.value.id == e.id {
        assert PendingSince(states, events, j, j + 1) && NoResetSince(events, j, j + 1);
      } else {
        var a: nat :| PendingSince(states, events, a, j) && NoResetSince(events, a, j);
        assert PendingSince(states, events, a, j + 1) && NoResetSince(events, a, j + 1);
      }
    }
  }

  lemma TokenStaysTraced(states: seq<Trust>, events: seq<Event>, j: nat)
    requires Execution(states, events) && j < |events|
    requires LoginTraced(states, events, j) && TokenTraced(states, events, j)
    ensures TokenTraced(states, events, j + 1)
  {
    var s, e := states[j], events[j];
    if states[j + 1].login.Some? && states[j + 1].login.value.hash.Some? {
      TokenOrigin(s, e);
      var hash := states[j + 1].login.value.hash;
      if s.login.value.hash == hash {
        var a: nat, b: nat :| a < b < j && TokenNamedAt(states, events, a, b, hash) && NoResetSince(events, a, j);
        assert a < b < j + 1 && TokenNamedAt(states, events, a, b, hash) && NoResetSince(events, a, j + 1);
      } else {
        var a: nat :| PendingSince(states, events, a, j) && NoResetSince(events, a, j);
        assert a < j < j + 1 && TokenNamedAt(states, events, a, j, hash) && NoResetSince(events, a, j + 1);
      }
    }
  }

  lemma {:induction false} SameProvider(states: seq<Trust>, events: seq<Event>, i: nat, j: nat)
    requires Execution(states, events) && i <= j < |states|
    ensures states[j].provider == states[i].provider && states[j].directory == states[i].directory
    decreases j
  {
    if i < j {
      SameProvider(states, events, i, j - 1);
      assert states[j - 1 + 1] == Step(states[j - 1], events[j - 1]);
    }
  }

  lemma NewOpenAIAnchorTraced(states: seq<Trust>, events: seq<Event>, j: nat)
    requires Execution(states, events) && j < |events| && Anchored(states[j + 1].row) && !Anchored(states[j].row)
    requires LoginTraced(states, events, j) && states[j].provider.OpenAI?
    ensures AnchorTraced(states, events, j + 1)
  {
    AnchorOrigin(states[j], events[j]);
    var a: nat :| PendingSince(states, events, a, j) && NoResetSince(events, a, j);
    assert LoginFor(states, events, a, j, AnchorId(states[j + 1].row)) && NoResetSince(events, a, j + 1);
  }

  lemma NewClaudeAnchorTraced(states: seq<Trust>, events: seq<Event>, j: nat)
    requires Execution(states, events) && j < |events| && Anchored(states[j + 1].row) && !Anchored(states[j].row)
    requires TokenTraced(states, events, j) && states[j].provider.Claude?
    ensures AnchorTraced(states, events, j + 1)
  {
    AnchorOrigin(states[j], events[j]);
    var a: nat, b: nat :| a < b < j && TokenNamedAt(states, events, a, b, states[j].login.value.hash) && NoResetSince(events, a, j);
    SameProvider(states, events, b, j);
    assert LoginFor(states, events, a, b, AnchorId(states[j + 1].row)) && NoResetSince(events, a, j + 1);
  }

  lemma AnchorStaysTraced(states: seq<Trust>, events: seq<Event>, j: nat)
    requires Execution(states, events) && j < |events| && AnchorTraced(states, events, j)
    requires LoginTraced(states, events, j) && TokenTraced(states, events, j)
    ensures AnchorTraced(states, events, j + 1)
  {
    if Anchored(states[j + 1].row) {
      if Anchored(states[j].row) {
        StepKeepsAnchor(states[j], events[j]);
        var a: nat, b: nat :| a < b < j && LoginFor(states, events, a, b, AnchorId(states[j].row)) && NoResetSince(events, a, j);
        assert a < b < j + 1 && LoginFor(states, events, a, b, AnchorId(states[j + 1].row)) && NoResetSince(events, a, j + 1);
      } else {
        if states[j].provider.OpenAI? {
          NewOpenAIAnchorTraced(states, events, j);
        } else {
          NewClaudeAnchorTraced(states, events, j);
        }
      }
    }
  }

  lemma {:induction false} AllTraced(states: seq<Trust>, events: seq<Event>, j: nat)
    requires Execution(states, events) && j < |states|
    ensures LoginTraced(states, events, j) && TokenTraced(states, events, j) && AnchorTraced(states, events, j)
  {
    if j > 0 {
      AllTraced(states, events, j - 1);
      LoginStaysTraced(states, events, j - 1);
      TokenStaysTraced(states, events, j - 1);
      AnchorStaysTraced(states, events, j - 1);
    }
  }

  /**
   * Every stored anchor goes back to an operator login for that very account: one
   * that was recorded, then completed, and after whose recording no reset came.
   */
  lemma FirstAnchorNeedsALogin(states: seq<Trust>, events: seq<Event>, j: nat)
    requires Execution(states, events) && j < |states| && Anchored(states[j].row)
    ensures exists a: nat, b: nat :: a < b < j && LoginFor(states, events, a, b, AnchorId(states[j].row)) && NoResetSince(events, a, j)
  {
    AllTraced(states, events, j);
  }

  // ---------------------------------------------------------------------------
  // The records, updated in place

  class AccountGuard {
    const provider: Provider
    const directory: map<string, string>
    var enabled: bool
    var status: Status
    var row: Row
    var login: Option<Login>
    var pin: Pin
    var deviceLogins: set<string>

    constructor (provider: Provider, directory: map<string, string>, enabled: bool)
      ensures State() == Trust(provider, enabled, Loading, NO_ROW, None, NO_PIN, {}, directory)
    {
      this.provider, this.directory, this.enabled := provider, directory, enabled;
      status, row, login, pin, deviceLogins := Loading, NO_ROW, None, NO_PIN, {};
    }

    function State(): Trust
      reads this
    {
      Trust(provider, enabled, status, row, login, pin, deviceLogins, directory)
    }

    /** Reads the pending login and removes it when it has expired. */
    method ReadLogin(expired: bool) returns (current: Option<Login>)
      modifies this`login
      ensures login == current == CurrentLogin(old(State()), expired)
    {
      if expired {
        login := None;
      }
      current := login;
    }

    method MarkDeactivated()
      modifies this
      ensures State() == Step(old(State()), Event.Deactivate)
    {
      status, login, pin := Deactivated, None, NO_PIN;
    }

    method MarkLoginCompleted(hash: Option<string>, expired: bool) returns (marked: bool)
      requires Enabled(State(), Event.CompleteLogin(hash, expired))
      modifies this
      ensures State() == Step(old(State()), Event.CompleteLogin(hash, expired))
      ensures marked == CurrentLogin(old(State()), expired).Some?
    {
      var current := ReadLogin(expired);
      if current.None? {
        return false;
      }
      var done := current.value.(completed := true);
      if hash.Some? {
        done := done.(hash := hash);
      }
      login := Some(done);
      return true;
    }

    method CaptureLogin(loginId: string, accountId: string, expired: bool) returns (captured: bool)
      requires Enabled(State(), Event.Capture(loginId, accountId, expired))
      modifies this
      ensures State() == Step(old(State()), Event.Capture(loginId, accountId, expired))
      ensures captured <==> AnchorId(row) == Some(accountId)
    {
      if Anchored(row) {
        return AnchorId(row) == Some(accountId);
      }
      var current := ReadLogin(expired);
      if current.None? || current.value.id != loginId {
        return false;
      }
      login := Some(current.value.(completed := true));
      row := Row(Some(accountId), None, true);
      return true;
    }

    /** The trust check against the records as they are now. */
    method CheckAccount(report: Report, expired: bool) returns (trusted: Result<Row, Distrust>)
      modifies this`login
      ensures var was := old(State());
        var asks := provider.Claude? && report.account.Some? && report.account.value.hash.Some? && !Anchored(row);
        && login == (if asks then CurrentLogin(was, expired) else was.login)
        && trusted == TrustedAccount(was, login, report)
    {
      if report.account.None? {
        return Error(Untrusted);
      }
      var account := report.account.value;
      if provider.OpenAI? {
        return TrustedOpenAI(row, account);
      }
      if account.hash.None? {
        return Error(Untrusted);
      }
      if Anchored(row) && row.hash == account.hash {
        return Ok(Row(row.id, account.hash, true));
      }
      if !Anchored(row) {
        var current := ReadLogin(expired);
        if !FirstCaptureApproved(current, account.hash.value) {
          return Error(NotApproved);
        }
      }
      var attested := report.attested;
      if attested.None? || attested.value.hash != account.hash || attested.value.uuid.None? {
        return Error(Untrusted);
      }
      if Anchored(row) && attested.value.uuid != row.id {
        return Error(Untrusted);
      }
      return Ok(Row(attested.value.uuid, account.hash, true));
    }

    method CommitRefresh(report: Report, expired: bool)
      requires Enabled(State(), Event.Commit(report, expired))
      modifies this
      ensures State() == Step(old(State()), Event.Commit(report, expired))
    {
      if !enabled {
        MarkDeactivated();
        return;
      }
      if !report.status.Active? {
        status, pin := report.status, NO_PIN;
        return;
      }
      var trusted := CheckAccount(report, expired);
      match trusted {
        case Ok(account) =>
          status, login, row, pin := Active, None, account, PinOf(provider, account);
        case Error(NotApproved) =>
          status, pin := AwaitingLogin, NO_PIN;
        case Error(Untrusted) =>
          status, pin := Failing, NO_PIN;
      }
    }

    method ResetLinkedAccount()
      modifies this
      ensures State() == Step(old(State()), Event.Reset)
    {
      status := if enabled then AwaitingLogin else Deactivated;
      login, row, pin := None, NO_ROW, NO_PIN;
    }

    method RecordLogin(id: string) returns (recorded: bool)
      modifies this
      ensures State() == Step(old(State()), Event.RecordLogin(id))
      ensures recorded == Records(old(State()), Event.RecordLogin(id))
    {
      if !enabled || (!status.AwaitingLogin? && !status.Failing?) {
        return false;
      }
      login := Some(Login(id, false, None));
      return true;
    }
  }
}
