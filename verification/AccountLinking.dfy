/** Which account a committed probe publishes, exactly; and that an operator can always link an account. */
module AccountLinking {
  import opened Prelude
  import opened AccountTrust

  /** The account and the token are published: active, stored as approved, pinned, with no login left pending. */
  predicate Publishes(s: Trust, id: string, hash: Option<string>) {
    && s.status == Active && s.login == None && s.row.approved && s.row.id == Some(id) && s.row.hash == hash
    && s.pin.id == Some(id) && s.pin.hash == if s.provider.OpenAI? then None else hash
  }

  /** Nothing is published; what is stored stays. */
  predicate Withheld(s: Trust, status: Status, s': Trust) {
    s'.status == status && s'.pin.id == None && s'.pin.hash == None && s'.row == s.row
  }

  predicate HasAnchor(r: Row) {
    r.approved && r.id.Some?
  }

  /** The probe names this account. */
  predicate Names(report: Report, id: string) {
    report.account.Some? && report.account.value.id == Some(id)
  }

  /** The probe carries this token. */
  predicate Carries(report: Report, hash: string) {
    report.account.Some? && report.account.value.hash == Some(hash)
  }

  /** The provider said to whom this token belongs. */
  predicate Attests(report: Report, hash: string, id: string) {
    report.attested.Some? && report.attested.value.hash == Some(hash) && report.attested.value.uuid == Some(id)
  }

  /** The pending login was completed with this very token. */
  predicate LoggedInWith(s: Trust, hash: string, expired: bool) {
    !expired && s.login.Some? && s.login.value.completed && s.login.value.hash == Some(hash)
  }

  /**
   * OpenAI: an account is published exactly if the probe names it and it is the
   * stored approved one. Without a stored one the commit waits for a login; with
   * another one, or without an account id, it fails. Neither touches the login.
   */
  lemma OpenAIPublishesExactly(s: Trust, report: Report, expired: bool, s': Trust, id: string)
    requires s.provider.OpenAI? && s.enabled && report.status == Active
    requires Enabled(s, Commit(report, expired)) && s' == Step(s, Commit(report, expired))
    ensures s'.status == Active && s'.pin.id == Some(id) <==> HasAnchor(s.row) && s.row.id == Some(id) && Names(report, id)
    ensures HasAnchor(s.row) && s.row.id == Some(id) && Names(report, id) ==> Publishes(s', id, report.account.value.hash)
    ensures Names(report, id) && !HasAnchor(s.row) ==> Withheld(s, AwaitingLogin, s') && s'.login == s.login
    ensures Names(report, id) && HasAnchor(s.row) && s.row.id != Some(id) ==> Withheld(s, Failing, s') && s'.login == s.login
    ensures (report.account.None? || report.account.value.id.None?) ==> Withheld(s, Failing, s') && s'.login == s.login
  {
  }

  /** Claude: this token may be published for this account. */
  predicate ClaudeMayPublish(s: Trust, report: Report, expired: bool, hash: string, id: string) {
    && Carries(report, hash)
    && if HasAnchor(s.row) then s.row.id == Some(id) && (s.row.hash == Some(hash) || Attests(report, hash, id))
       else LoggedInWith(s, hash, expired) && Attests(report, hash, id)
  }

  /**
   * Claude: a token is published for an account exactly if it is the stored
   * token of the stored account, or the provider attests it for the stored
   * account, or nothing is stored, the pending login produced it and the provider
   * attests it. Nothing stored and no such login waits for a login; all else fails.
   */
  lemma ClaudePublishesExactly(s: Trust, report: Report, expired: bool, s': Trust, hash: string, id: string)
    requires s.provider.Claude? && s.enabled && report.status == Active
    requires Enabled(s, Commit(report, expired)) && s' == Step(s, Commit(report, expired))
    ensures s'.status == Active && s'.pin == Pin(Some(id), Some(hash)) <==> ClaudeMayPublish(s, report, expired, hash, id)
    ensures ClaudeMayPublish(s, report, expired, hash, id) ==> Publishes(s', id, Some(hash))
    ensures Carries(report, hash) && !HasAnchor(s.row) && !LoggedInWith(s, hash, expired) ==> Withheld(s, AwaitingLogin, s')
    ensures Carries(report, hash) && (HasAnchor(s.row) || LoggedInWith(s, hash, expired)) ==>
      (exists x :: ClaudeMayPublish(s, report, expired, hash, x)) || Withheld(s, Failing, s')
    ensures (report.account.None? || report.account.value.hash.None?) ==> Withheld(s, Failing, s') && s'.login == s.login
    ensures s'.status != Active ==> s'.login == s.login || (expired && !HasAnchor(s.row) && s'.login == None)
  {
    if Carries(report, hash) && (HasAnchor(s.row) || LoggedInWith(s, hash, expired)) {
      if HasAnchor(s.row) && s.row.hash == Some(hash) {
        assert ClaudeMayPublish(s, report, expired, hash, s.row.id.value);
      } else if report.attested.Some? && report.attested.value.uuid.Some? {
        var x := report.attested.value.uuid.value;
        assert ClaudeMayPublish(s, report, expired, hash, x)
               <==> Attests(report, hash, x) && (HasAnchor(s.row) ==> s.row.id == Some(x));
      }
    }
  }

  /** A commit that finds the runtime disabled ends it; one of an idle runtime only takes its status and unpins it. */
  lemma CommitOtherwise(s: Trust, report: Report, expired: bool, s': Trust)
    requires Enabled(s, Commit(report, expired)) && s' == Step(s, Commit(report, expired))
    ensures !s.enabled ==> Withheld(s, Deactivated, s') && s'.login == None
    ensures s.enabled && report.status != Active ==> Withheld(s, report.status, s') && s'.login == s.login
  {
  }

  /** Which steps touch which records, and what a deactivation, a reset and a cancelled login leave. */
  lemma WhoTouchesWhat(s: Trust, e: Event, s': Trust)
    requires Enabled(s, e) && s' == Step(s, e)
    ensures s'.provider == s.provider && s'.directory == s.directory
    ensures s'.enabled == if e.SetPolicy? then e.enabled else s.enabled
    ensures s'.deviceLogins == if e.FinishDeviceLogin? then s.deviceLogins + {e.id} else s.deviceLogins
    ensures !e.Capture? && !e.Commit? && !e.Reset? ==> s'.row == s.row
    ensures !e.Commit? && !e.Reset? && !e.Deactivate? ==> s'.pin == s.pin
    ensures e.Deactivate? || e.Reset? ==> s'.pin == NO_PIN && s'.login == None && !s'.status.Active?
    ensures e.Reset? ==> !HasAnchor(s'.row)
    ensures e.ClearLogin? ==> s'.login == None
    ensures e.SetPolicy? || e.FinishDeviceLogin? || e.Restart? ==> s'.login == s.login
    ensures !e.Commit? && !e.Reset? && !e.Deactivate? && !e.Restart? ==> s'.status == s.status
  {
  }

  // ---------------------------------------------------------------------------
  // Linking an account

  ghost predicate Leads(s: Trust, es: seq<Event>, s': Trust)
    decreases |es|
  {
    if es == [] then s' == s else Enabled(s, es[0]) && Leads(Step(s, es[0]), es[1..], s')
  }

  lemma LeadsStep(s: Trust, e: Event, es: seq<Event>, s': Trust)
    requires Enabled(s, e) && Leads(Step(s, e), es, s')
    ensures Leads(s, [e] + es, s')
  {
    assert ([e] + es)[1..] == es;
  }

  /** After a reset of an enabled runtime a login is recorded. */
  lemma LoginIsRecorded(s: Trust, login: string, s': Trust)
    requires s' == Step(Step(Step(s, SetPolicy(true)), Reset), RecordLogin(login))
    ensures s' == s.(enabled := true, status := AwaitingLogin, login := Some(Login(login, false, None)), row := NO_ROW, pin := NO_PIN)
  {
  }

  function FreshLogin(login: string): seq<Event> {
    [SetPolicy(true), Reset, RecordLogin(login)]
  }

  lemma AfterFreshLogin(s: Trust, login: string, es: seq<Event>, s': Trust)
    requires Leads(Step(Step(Step(s, SetPolicy(true)), Reset), RecordLogin(login)), es, s')
    ensures Leads(s, FreshLogin(login) + es, s')
  {
    var a, b := Step(s, SetPolicy(true)), Step(Step(s, SetPolicy(true)), Reset);
    LeadsStep(b, RecordLogin(login), es, s');
    LeadsStep(a, Reset, [RecordLogin(login)] + es, s');
    LeadsStep(s, SetPolicy(true), [Reset] + ([RecordLogin(login)] + es), s');
    assert [SetPolicy(true)] + ([Reset] + ([RecordLogin(login)] + es)) == FreshLogin(login) + es;
  }

  /** From any state whatsoever: a reset, a login that finishes, its capture and the next probe publish the account. */
  lemma OpenAIAccountCanBeLinked(s: Trust, login: string, id: string, hash: Option<string>) returns (s': Trust)
    requires s.provider.OpenAI?
    ensures Leads(s, FreshLogin(login) + [FinishDeviceLogin(login), Capture(login, id, false),
                                          Commit(Report(Active, Some(Probed(Some(id), hash)), None), false)], s')
    ensures Publishes(s', id, hash)
  {
    var report := Report(Active, Some(Probed(Some(id), hash)), None);
    var a := Step(Step(Step(s, SetPolicy(true)), Reset), RecordLogin(login));
    LoginIsRecorded(s, login, a);
    var b := Step(a, FinishDeviceLogin(login));
    var c := Step(b, Capture(login, id, false));
    s' := Step(c, Commit(report, false));
    OpenAIPublishesExactly(c, report, false, s', id);
    assert Leads(s', [], s');
    LeadsStep(c, Commit(report, false), [], s');
    LeadsStep(b, Capture(login, id, false), [Commit(report, false)], s');
    LeadsStep(a, FinishDeviceLogin(login), [Capture(login, id, false), Commit(report, false)], s');
    assert [FinishDeviceLogin(login)] + [Capture(login, id, false), Commit(report, false)]
        == [FinishDeviceLogin(login), Capture(login, id, false), Commit(report, false)];
    AfterFreshLogin(s, login, [FinishDeviceLogin(login), Capture(login, id, false), Commit(report, false)], s');
  }

  /** The same for the account that the provider reports for the token which the login produced. */
  lemma ClaudeAccountCanBeLinked(s: Trust, login: string, hash: string, seen: Option<string>) returns (s': Trust)
    requires s.provider.Claude? && hash in s.directory
    ensures var id := s.directory[hash];
      && Leads(s, FreshLogin(login) + [CompleteLogin(Some(hash), false),
          Commit(Report(Active, Some(Probed(seen, Some(hash))), Some(Attestation(Some(hash), Some(id)))), false)], s')
      && Publishes(s', id, Some(hash))
  {
    var id := s.directory[hash];
    var report := Report(Active, Some(Probed(seen, Some(hash))), Some(Attestation(Some(hash), Some(id))));
    var a := Step(Step(Step(s, SetPolicy(true)), Reset), RecordLogin(login));
    LoginIsRecorded(s, login, a);
    var b := Step(a, CompleteLogin(Some(hash), false));
    s' := Step(b, Commit(report, false));
    ClaudePublishesExactly(b, report, false, s', hash, id);
    assert Leads(s', [], s');
    LeadsStep(b, Commit(report, false), [], s');
    LeadsStep(a, CompleteLogin(Some(hash), false), [Commit(report, false)], s');
    AfterFreshLogin(s, login, [CompleteLogin(Some(hash), false), Commit(report, false)], s');
  }
}
