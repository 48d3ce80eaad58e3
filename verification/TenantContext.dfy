/** Row-level security over pooled connections: the transaction-local settings a session applies at
    every transaction begin, the empty-string residue they leave behind, and what the policies show. */
module TenantContext {
  import opened Sql
  import opened Digits

  // ---------------------------------------------------------------------------
  // Settings and policies.
  // ---------------------------------------------------------------------------

  const MAX_BIGINT: int := 9223372036854775807

  predicate IsBigint(n: int) { -MAX_BIGINT - 1 <= n <= MAX_BIGINT }

  /** Python's str of an int. */
  function Str(n: int): (s: string)
    ensures s != ""
  {
    if n < 0 then "-" + Text(-n) else Text(n)
  }

  /** text::bigint; None is the cast error. */
  function ParseBigint(s: string): Option<int> {
    var negative := s != "" && s[0] == '-';
    var digits := if negative then s[1..] else s;
    if digits == "" || !AllDigits(digits) then None
    else
      var n := if negative then -(NatOf(digits) as int) else NatOf(digits);
      if IsBigint(n) then Some(n) else None
  }

  lemma StrParsesBack(n: int)
    ensures ParseBigint(Str(n)) == if IsBigint(n) then Some(n) else None
    ensures IsBigint(n) <==> -0x8000_0000_0000_0000 <= n < 0x8000_0000_0000_0000
    ensures Str(n)[0] == '-' <==> n < 0
  {
    if n < 0 {
      assert Str(n)[1..] == Text(-n);
      TextDenotes(-n);
    } else {
      assert IsDigit(Text(n)[0]);
      TextDenotes(n);
    }
  }

  /** The outcome of a policy expression on one row. */
  datatype Outcome = Error | Answer(truth: Truth)

  /** organisation_id = current_setting(...)::bigint */
  function Unguarded(column: int, setting: Option<string>): Outcome {
    if setting.None? then Answer(Null)
    else if ParseBigint(setting.value).None? then Error
    else Answer(Equal(Some(column), ParseBigint(setting.value)))
  }

  /** organisation_id = NULLIF(current_setting(...), '')::bigint */
  function Guarded(column: int, setting: Option<string>): Outcome {
    Unguarded(column, if setting == Some("") then None else setting)
  }

  /** Permissive policies are combined by OR; any error is an error. */
  function AnyOf(a: Outcome, b: Outcome): Outcome {
    if a.Error? || b.Error? then Error else Answer(Or(a.truth, b.truth))
  }

  predicate Admits(o: Outcome) { o == Answer(True) }

  // ---------------------------------------------------------------------------
  // One connection, one session.
  // ---------------------------------------------------------------------------

  /** What current_setting reports on a physical connection: absent until the setting is first made. */
  datatype Settings = Settings(org: Option<string>, user: Option<string>)

  /** A transaction-local setting that was ever made reads as the empty string after the transaction. */
  function Ended(s: Settings): Settings {
    Settings(if s.org.None? then None else Some(""), if s.user.None? then None else Some(""))
  }

  predicate Blank(setting: Option<string>) { setting.None? || setting == Some("") }

  /** Ended is the only state that is blank throughout and absent exactly where the last one was. */
  lemma EndedMeans(s: Settings, e: Settings)
    requires Blank(e.org) && Blank(e.user)
    requires (e.org.None? <==> s.org.None?) && (e.user.None? <==> s.user.None?)
    ensures e == Ended(s)
  {
  }

  /** _apply_tenant_context: only a session that carries an organisation sets anything. */
  function Begun(s: Settings, org: Option<int>): Settings {
    if org.None? then s else s.(org := Some(Str(org.value)))
  }

  /** Under the setting the guarded policy fails on the row exactly when the identifier is no bigint, and otherwise
      admits it exactly when the column holds the identifier. */
  predicate Shows(setting: Option<string>, column: int, id: int) {
    && (Guarded(column, setting) == Error <==> !IsBigint(id))
    && (Admits(Guarded(column, setting)) <==> IsBigint(id) && column == id)
  }

  lemma TextShows(column: int, id: int)
    ensures Shows(Some(Str(id)), column, id)
  {
    StrParsesBack(id);
  }

  class Connection {
    var settings: Settings
    var inTransaction: bool

    constructor ()
      ensures settings == Settings(None, None) && !inTransaction
    {
      settings, inTransaction := Settings(None, None), false;
    }

    method SetLocalOrg(text: string)
      requires inTransaction
      modifies this`settings
      ensures settings == old(settings).(org := Some(text))
    {
      settings := settings.(org := Some(text));
    }

    method SetLocalUser(text: string)
      requires inTransaction
      modifies this`settings
      ensures settings == old(settings).(user := Some(text))
    {
      settings := settings.(user := Some(text));
    }

    /** Nothing of the transaction's context is left to read: both settings are blank, and one that was
        never made still reads as absent. */
    method EndTransaction()
      modifies this
      ensures !inTransaction && Blank(settings.org) && Blank(settings.user)
      ensures settings.org.None? <==> old(settings).org.None?
      ensures settings.user.None? <==> old(settings).user.None?
    {
      settings, inTransaction := Ended(settings), false;
    }
  }

  const ORG_KEY := "rls_txn_r1_app_current_org_id"

  class TenantScopedSession {
    var info: map<string, int>
    var connection: Connection?

    /** get_db passes the organisation of the validated claims; get_db_unauthenticated passes none. */
    constructor (org: Option<int>)
      ensures connection == null && Org() == org
    {
      info := if org.Some? then map[ORG_KEY := org.value] else map[];
      connection := null;
    }

    function Org(): Option<int>
      reads this
    {
      if ORG_KEY in info then Some(info[ORG_KEY]) else None
    }

    method ApplyTenantContext(c: Connection)
      requires c.inTransaction
      modifies c`settings
      ensures c.settings == Begun(old(c.settings), Org())
    {
      var org := if ORG_KEY in info then Some(info[ORG_KEY]) else None;
      if org.None? {
        return;
      }
      c.SetLocalOrg(Str(org.value));
    }

    /** The first statement after opening, a commit or a rollback begins a transaction on a connection
        taken from the pool. */
    method Begin(c: Connection)
      requires connection == null && !c.inTransaction
      modifies this`connection, c
      ensures connection == c && c.inTransaction && Org() == old(Org())
      ensures c.settings == Begun(old(c.settings), Org())
    {
      connection := c;
      c.inTransaction := true;
      ApplyTenantContext(c);
    }

    /** set_current_user_id: from then on the policy for the user shows that user's memberships and no others; a
        number no bigint holds makes it fail. */
    method ChooseUser(user: int)
      requires connection != null && connection.inTransaction
      modifies connection`settings
      ensures connection.settings == old(connection.settings).(user := Some(Str(user)))
      ensures forall u :: Shows(connection.settings.user, u, user)
    {
      connection.SetLocalUser(Str(user));
      forall u ensures Shows(Some(Str(user)), u, user) { TextShows(u, user); }
    }

    /** set_current_org_id, called only on sessions that carry no organisation: likewise for the rows of the
        organisation. */
    method ChooseOrg(org: int)
      requires connection != null && connection.inTransaction && Org().None?
      modifies connection`settings
      ensures connection.settings == old(connection.settings).(org := Some(Str(org)))
      ensures forall column :: Shows(connection.settings.org, column, org)
    {
      connection.SetLocalOrg(Str(org));
      forall column ensures Shows(Some(Str(org)), column, org) { TextShows(column, org); }
    }

    /** Commit and rollback alike: the session keeps its organisation, the connection keeps nothing. */
    method End()
      requires connection != null
      modifies this`connection, connection
      ensures connection == null && Org() == old(Org()) && !old(connection).inTransaction
      ensures old(connection).settings == Ended(old(connection.settings))
    {
      connection.EndTransaction();
      EndedMeans(old(connection.settings), connection.settings);
      connection := null;
    }
  }

  // ---------------------------------------------------------------------------
  // Any number of sessions over a shared pool.
  // ---------------------------------------------------------------------------

  /** `at` is the connection of the open transaction; `chosen` is the organisation an unauthenticated
      flow selected explicitly in it, and `user` the user it was opened for. */
  datatype Session = Session(org: Option<int>, at: Option<int>, chosen: Option<int>, user: Option<int>)

  datatype Pool = Pool(connections: map<int, Settings>, sessions: map<int, Session>)

  datatype Action =
    | Connect(c: int)
    | Open(org: Option<int>)
    | Begin(conn: int)
    | ChooseOrg(chosenOrg: int)
    | ChooseUser(chosenUser: int)
    | End          // commit or rollback
    | Close

  ghost predicate Idle(p: Pool, c: int) {
    c in p.connections && forall k :: k in p.sessions ==> p.sessions[k].at != Some(c)
  }

  ghost predicate Enabled(p: Pool, k: int, a: Action) {
    match a
    case Connect(c) => c !in p.connections
    case Open(_) => k !in p.sessions
    case Begin(c) => k in p.sessions && p.sessions[k].at.None? && Idle(p, c)
    case ChooseOrg(_) => k in p.sessions && InTransaction(p, k) && p.sessions[k].org.None?   // register, switch-org
    case ChooseUser(_) => k in p.sessions && InTransaction(p, k)
    case End => k in p.sessions && InTransaction(p, k)
    case Close => k in p.sessions
  }

  predicate InTransaction(p: Pool, k: int)
    requires k in p.sessions
  {
    p.sessions[k].at.Some? && p.sessions[k].at.value in p.connections
  }

  function WithSettings(p: Pool, c: int, s: Settings): Pool { p.(connections := p.connections[c := s]) }

  ghost function Do(p: Pool, k: int, a: Action): Pool
    requires Enabled(p, k, a)
  {
    match a
    case Connect(c) => WithSettings(p, c, Settings(None, None))
    case Open(org) => p.(sessions := p.sessions[k := Session(org, None, None, None)])
    case Begin(c) =>
      Pool(p.connections[c := Begun(p.connections[c], p.sessions[k].org)],
           p.sessions[k := p.sessions[k].(at := Some(c), chosen := None, user := None)])
    case ChooseOrg(org) =>
      var c := p.sessions[k].at.value;
      Pool(p.connections[c := p.connections[c].(org := Some(Str(org)))],
           p.sessions[k := p.sessions[k].(chosen := Some(org))])
    case ChooseUser(user) =>
      var c := p.sessions[k].at.value;
      Pool(p.connections[c := p.connections[c].(user := Some(Str(user)))],
           p.sessions[k := p.sessions[k].(user := Some(user))])
    case End =>
      var c := p.sessions[k].at.value;
      Pool(p.connections[c := Ended(p.connections[c])],
           p.sessions[k := p.sessions[k].(at := None, chosen := None, user := None)])
    case Close =>
      if InTransaction(p, k) then
        var c := p.sessions[k].at.value;
        Pool(p.connections[c := Ended(p.connections[c])], p.sessions - {k})
      else p.(sessions := p.sessions - {k})
  }

  /** The organisation a session's open transaction runs under. */
  function Effective(s: Session): Option<int> { if s.org.Some? then s.org else s.chosen }

  ghost predicate Isolated(p: Pool) {
    && (forall k :: k in p.sessions && p.sessions[k].at.Some? ==> p.sessions[k].at.value in p.connections)
    && (forall j, k :: j in p.sessions && k in p.sessions && j != k && p.sessions[j].at.Some? ==>
         p.sessions[j].at != p.sessions[k].at)
    && (forall c :: Idle(p, c) ==> Blank(p.connections[c].org) && Blank(p.connections[c].user))
    && (forall k :: k in p.sessions && p.sessions[k].at.Some? ==> CarriesContext(p, k))
  }

  predicate CarriesContext(p: Pool, k: int)
    requires k in p.sessions && p.sessions[k].at.Some?
  {
    p.sessions[k].at.value in p.connections
    && var settings := p.connections[p.sessions[k].at.value];
       Carries(settings.org, Effective(p.sessions[k])) && Carries(settings.user, p.sessions[k].user)
  }

  /** The setting is the text of the identifier, or blank when there is none. */
  predicate Carries(setting: Option<string>, id: Option<int>) {
    match id case Some(n) => setting == Some(Str(n)) case None => Blank(setting)
  }

  lemma StepKeepsIsolated(p: Pool, k: int, a: Action)
    requires Isolated(p) && Enabled(p, k, a)
    ensures Isolated(Do(p, k, a))
  {
    var q := Do(p, k, a);
    forall c | Idle(q, c) ensures Blank(q.connections[c].org) && Blank(q.connections[c].user) {
      assert k in q.sessions ==> q.sessions[k].at != Some(c);
      if c !in p.connections {
        assert a == Connect(c);
      } else if Idle(p, c) {
        assert q.connections[c] == p.connections[c];
      } else {
        var j :| j in p.sessions && p.sessions[j].at == Some(c);
        if j in q.sessions { assert q.sessions[j].at != Some(c); }
        assert j == k;
        assert q.connections[c] == Ended(p.connections[c]);
      }
    }
    forall j | j in q.sessions && q.sessions[j].at.Some? ensures CarriesContext(q, j) {
      if j != k {
        assert CarriesContext(p, j);
      } else if k in p.sessions && p.sessions[k].at.Some? {
        assert CarriesContext(p, k);
      }
    }
  }

  ghost predicate Step(p: Pool, q: Pool) {
    exists k, a :: Enabled(p, k, a) && q == Do(p, k, a)
  }

  ghost predicate Execution(run: seq<Pool>) {
    && run != [] && run[0] == Pool(map[], map[])
    && forall i :: 0 <= i < |run| - 1 ==> Step(run[i], run[i + 1])
  }

  lemma {:induction false} ExecutionsStayIsolated(run: seq<Pool>, n: nat)
    requires Execution(run) && n < |run|
    ensures Isolated(run[n])
  {
    if n > 0 {
      ExecutionsStayIsolated(run, n - 1);
      assert Step(run[n - 1], run[n - 1 + 1]);
      var k, a :| Enabled(run[n - 1], k, a) && run[n] == Do(run[n - 1], k, a);
      StepKeepsIsolated(run[n - 1], k, a);
    }
  }

  // ---------------------------------------------------------------------------
  // What the policies show in a reachable state.
  // ---------------------------------------------------------------------------

  /** The settings seen by the open transaction of a session. */
  function SettingsOf(p: Pool, k: int): Settings
    requires k in p.sessions && InTransaction(p, k)
  {
    p.connections[p.sessions[k].at.value]
  }

  lemma SettingDecides(column: int, org: Option<int>, setting: Option<string>)
    requires Carries(setting, org) && (org.Some? ==> IsBigint(org.value))
    ensures Guarded(column, setting) != Error
    ensures Admits(Guarded(column, setting)) <==> org == Some(column)
    ensures Unguarded(column, setting) == Error <==> setting == Some("")
  {
    if org.Some? { StrParsesBack(org.value); }
  }

  /** In any reachable state the guarded policy never fails, and a transaction of an authenticated
      session, the first or any later one, admits exactly the rows of that session's organisation; an
      unauthenticated one admits exactly those of the organisation it chose itself, and none by default.
      The same test decides which rows it may read and which it may write. */
  lemma GuardedPolicyIsolates(run: seq<Pool>, n: nat, k: int, column: int)
    requires Execution(run) && n < |run| && k in run[n].sessions && InTransaction(run[n], k)
    requires Effective(run[n].sessions[k]).Some? ==> IsBigint(Effective(run[n].sessions[k]).value)
    ensures var o := Guarded(column, SettingsOf(run[n], k).org);
            o != Error && (Admits(o) <==> Effective(run[n].sessions[k]) == Some(column))
  {
    ExecutionsStayIsolated(run, n);
    assert CarriesContext(run[n], k);
    SettingDecides(column, Effective(run[n].sessions[k]), SettingsOf(run[n], k).org);
  }

  /** The unguarded policy fails in exactly the transactions that run without an organisation on a
      connection that once carried one. */
  lemma UnguardedPolicyFails(run: seq<Pool>, n: nat, k: int, column: int)
    requires Execution(run) && n < |run| && k in run[n].sessions && InTransaction(run[n], k)
    requires Effective(run[n].sessions[k]).Some? ==> IsBigint(Effective(run[n].sessions[k]).value)
    ensures Unguarded(column, SettingsOf(run[n], k).org) == Error
            <==> Effective(run[n].sessions[k]).None? && SettingsOf(run[n], k).org.Some?
  {
    ExecutionsStayIsolated(run, n);
    assert CarriesContext(run[n], k);
    SettingDecides(column, Effective(run[n].sessions[k]), SettingsOf(run[n], k).org);
  }

  /** Once a connection has carried a setting it never reads as absent again. */
  lemma {:induction false} ResidueIsPermanent(run: seq<Pool>, i: nat, j: nat, c: int)
    requires Execution(run) && i <= j < |run| && c in run[i].connections && run[i].connections[c].org.Some?
    ensures c in run[j].connections && run[j].connections[c].org.Some?
    decreases j
  {
    if i < j {
      ResidueIsPermanent(run, i, j - 1, c);
      assert Step(run[j - 1], run[j - 1 + 1]);
    }
  }

  /** In any reachable transaction a membership is readable exactly if it belongs to the organisation in
      force or to the user the transaction was opened for, and writable exactly through the organisation:
      the policy for the user covers SELECT alone.  Neither policy ever fails. */
  lemma MembershipVisible(run: seq<Pool>, n: nat, k: int, row: (int, int))
    requires Execution(run) && n < |run| && k in run[n].sessions && InTransaction(run[n], k)
    requires Effective(run[n].sessions[k]).Some? ==> IsBigint(Effective(run[n].sessions[k]).value)
    requires run[n].sessions[k].user.Some? ==> IsBigint(run[n].sessions[k].user.value)
    ensures var s := SettingsOf(run[n], k);
            var read, write := AnyOf(Guarded(row.0, s.org), Guarded(row.1, s.user)), Guarded(row.0, s.org);
            && read != Error && write != Error
            && (Admits(write) <==> Effective(run[n].sessions[k]) == Some(row.0))
            && (Admits(read) <==>
                  Effective(run[n].sessions[k]) == Some(row.0) || run[n].sessions[k].user == Some(row.1))
  {
    ExecutionsStayIsolated(run, n);
    assert CarriesContext(run[n], k);
    var s := SettingsOf(run[n], k);
    SettingDecides(row.0, Effective(run[n].sessions[k]), s.org);
    SettingDecides(row.1, run[n].sessions[k].user, s.user);
  }

  /** The failure 0023 removes is reachable: an authenticated request commits and closes, and an
      unauthenticated one is handed the same connection. */
  lemma CastErrorIsReachable(org: int) returns (run: seq<Pool>)
    ensures Execution(run)
    ensures var p := run[|run| - 1];
            2 in p.sessions && InTransaction(p, 2) && p.sessions[2].org.None?
            && Unguarded(org, SettingsOf(p, 2).org) == Error && Guarded(org, SettingsOf(p, 2).org) == Answer(Null)
  {
    var p0 := Pool(map[], map[]);
    var p1 := Do(p0, 1, Connect(9));
    var p2 := Do(p1, 1, Open(Some(org)));
    var p3 := Do(p2, 1, Begin(9));
    var p4 := Do(p3, 1, Close);
    var p5 := Do(p4, 2, Open(None));
    var p6 := Do(p5, 2, Begin(9));
    assert Step(p0, p1) && Step(p1, p2) && Step(p2, p3) && Step(p3, p4) && Step(p4, p5) && Step(p5, p6);
    run := [p0, p1, p2, p3, p4, p5, p6];
  }

  // ---------------------------------------------------------------------------
  // A session keeps the organisation it was opened with.
  // ---------------------------------------------------------------------------

  /** The step from i to i + 1 opens the session j with the organisation, or with none. */
  ghost predicate OpensAt(run: seq<Pool>, i: nat, j: int, org: Option<int>)
    requires i + 1 < |run|
  {
    Enabled(run[i], j, Open(org)) && run[i + 1] == Do(run[i], j, Open(org))
  }

  ghost predicate PresentFrom(run: seq<Pool>, j: int, i: nat, n: nat)
    requires n < |run|
  {
    forall m :: i <= m <= n ==> j in run[m].sessions
  }

  /** Only opening gives a session its organisation: no other step, of this session or another, alters it. */
  lemma StepKeepsOrganisation(p: Pool, k: int, a: Action, j: int)
    requires Enabled(p, k, a) && j in Do(p, k, a).sessions
    ensures j in p.sessions ==> Do(p, k, a).sessions[j].org == p.sessions[j].org
    ensures j !in p.sessions ==> j == k && a == Open(Do(p, k, a).sessions[j].org)
  {
  }

  lemma {:induction false} OrganisationIsKept(run: seq<Pool>, i: nat, j: int, org: Option<int>, n: nat)
    requires Execution(run) && i + 1 < |run| && OpensAt(run, i, j, org)
    requires i < n < |run| && PresentFrom(run, j, i + 1, n)
    ensures run[n].sessions[j].org == org
  {
    if n > i + 1 {
      OrganisationIsKept(run, i, j, org, n - 1);
      assert Step(run[n - 1], run[n - 1 + 1]);
      var k, a :| Enabled(run[n - 1], k, a) && run[n] == Do(run[n - 1], k, a);
      StepKeepsOrganisation(run[n - 1], k, a, j);
    }
  }

  /** After any number of commits and rollbacks, every transaction of a session opened with an organisation, on
      whatever connection and after whatever other sessions, admits exactly the rows of that organisation. */
  lemma SessionAdmitsItsOrganisation(run: seq<Pool>, i: nat, j: int, org: int, n: nat, column: int)
    requires Execution(run) && i + 1 < |run| && OpensAt(run, i, j, Some(org)) && IsBigint(org)
    requires i < n < |run| && PresentFrom(run, j, i + 1, n) && InTransaction(run[n], j)
    ensures var o := Guarded(column, SettingsOf(run[n], j).org);
            o != Error && (Admits(o) <==> column == org)
  {
    OrganisationIsKept(run, i, j, Some(org), n);
    GuardedPolicyIsolates(run, n, j, column);
  }

  /** The step from i to i + 1 begins a transaction of the session. */
  ghost predicate BeginsAt(run: seq<Pool>, i: nat, j: int)
    requires i + 1 < |run|
  {
    exists c :: Enabled(run[i], j, Begin(c)) && run[i + 1] == Do(run[i], j, Begin(c))
  }

  /** A session opened without an organisation sees nothing at the beginning of any of its transactions, whatever it
      chose in an earlier one. */
  lemma NothingIsChosenYet(run: seq<Pool>, i: nat, j: int, n: nat, row: (int, int))
    requires Execution(run) && i + 1 < |run| && OpensAt(run, i, j, None)
    requires i < n && n + 1 < |run| && PresentFrom(run, j, i + 1, n) && BeginsAt(run, n, j)
    ensures j in run[n + 1].sessions && InTransaction(run[n + 1], j)
    ensures var s := SettingsOf(run[n + 1], j);
            && Guarded(row.0, s.org) == Answer(Null) && Guarded(row.1, s.user) == Answer(Null)
            && !Admits(AnyOf(Guarded(row.0, s.org), Guarded(row.1, s.user)))
  {
    OrganisationIsKept(run, i, j, None, n);
    ExecutionsStayIsolated(run, n + 1);
    assert CarriesContext(run[n + 1], j);
  }

  /** A choice is in force at once, for the transaction in which it is made. */
  lemma ChoiceIsInForce(run: seq<Pool>, n: nat, j: int, id: int, row: (int, int))
    requires Execution(run) && n + 1 < |run| && IsBigint(id)
    ensures Enabled(run[n], j, ChooseOrg(id)) && run[n + 1] == Do(run[n], j, ChooseOrg(id)) ==>
              && j in run[n + 1].sessions && InTransaction(run[n + 1], j)
              && (Admits(Guarded(row.0, SettingsOf(run[n + 1], j).org)) <==> row.0 == id)
    ensures Enabled(run[n], j, ChooseUser(id)) && run[n + 1] == Do(run[n], j, ChooseUser(id)) ==>
              && j in run[n + 1].sessions && InTransaction(run[n + 1], j)
              && (Admits(Guarded(row.1, SettingsOf(run[n + 1], j).user)) <==> row.1 == id)
  {
    StrParsesBack(id);
  }
}
