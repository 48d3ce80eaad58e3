/** Expiry and notice alerts of a contract, and its status, as days go by.  Days are numbered. */
module ContractAlerts {
  import opened Sql

  datatype Kind = Expiry(days: int) | NoticeDeadline

  datatype Alert = Alert(kind: Kind, day: int)

  datatype Status = Active | NoticePeriodOpen | ExpiringSoon | Expired | AutoRenewing

  datatype Terms = Terms(expiry: int, noticePeriod: int, autoRenew: bool)

  /** What the alerts of a contract are told by; the thresholds are different numbers of days. */
  datatype Plan = Plan(expiry: int, deadline: int, thresholds: seq<int>)

  const EXPIRING_SOON_DAYS := 90

  /** DEFAULT_ALERT_THRESHOLDS_DAYS, largest first. */
  const THRESHOLDS: seq<int> := [180, 90, 60, 30]

  /** calculate_notice_deadline; None stands for the ValueError. */
  function NoticeDeadlineOf(t: Terms): Option<int> {
    if t.noticePeriod < 0 then None else Some(t.expiry - t.noticePeriod)
  }

  function PlanOf(t: Terms): Plan
    requires NoticeDeadlineOf(t).Some?
  {
    Plan(t.expiry, NoticeDeadlineOf(t).value, THRESHOLDS)
  }

  /** classify_contract_status */
  function StatusOn(t: Terms, deadline: int, today: int): Status {
    if today > t.expiry then Expired
    else if today > deadline then (if t.autoRenew then AutoRenewing else NoticePeriodOpen)
    else if t.expiry - today <= EXPIRING_SOON_DAYS then ExpiringSoon
    else Active
  }

  // ---------------------------------------------------------------------------
  // Alerts.
  // ---------------------------------------------------------------------------

  function Fired(alerts: seq<Alert>): (kinds: set<Kind>) { set a | a in alerts :: a.kind }

  /** Does the day call for an alert of this kind? */
  predicate Calls(p: Plan, day: int, kind: Kind) {
    match kind
    case Expiry(n) => n in p.thresholds && p.expiry - day <= n
    case NoticeDeadline => day == p.deadline
  }

  /** The expiry alerts for the thresholds from the i-th on. */
  function DueExpiry(p: Plan, today: int, fired: set<Kind>, i: nat): seq<Kind>
    requires i <= |p.thresholds|
    decreases |p.thresholds| - i
  {
    if i == |p.thresholds| then []
    else
      var kind := Expiry(p.thresholds[i]);
      (if p.expiry - today <= p.thresholds[i] && kind !in fired then [kind] else []) + DueExpiry(p, today, fired, i + 1)
  }

  function Due(p: Plan, today: int, fired: set<Kind>): seq<Kind> {
    DueExpiry(p, today, fired, 0) + (if today == p.deadline && NoticeDeadline !in fired then [NoticeDeadline] else [])
  }

  function Dated(kinds: seq<Kind>, day: int): (alerts: seq<Alert>)
    ensures |alerts| == |kinds| && forall i :: 0 <= i < |kinds| ==> alerts[i] == Alert(kinds[i], day)
  {
    seq(|kinds|, i requires 0 <= i < |kinds| => Alert(kinds[i], day))
  }

  /** The stored alerts after one more check. */
  function Checked(p: Plan, alerts: seq<Alert>, today: int): seq<Alert> {
    alerts + Dated(Due(p, today, Fired(alerts)), today)
  }

  class Contract {
    var terms: Terms
    var status: Status
    var alerts: seq<Alert>

    /** determine_due_alerts, for thresholds already sorted with the largest first. */
    method DetermineDueAlerts(today: int, deadline: int, fired: set<Kind>, thresholds: seq<int>)
      returns (due: seq<Kind>)
      ensures due == Due(Plan(terms.expiry, deadline, thresholds), today, fired)
    {
      ghost var p := Plan(terms.expiry, deadline, thresholds);
      ghost var all := DueExpiry(p, today, fired, 0);
      due := [];
      for i := 0 to |thresholds|
        invariant all == due + DueExpiry(p, today, fired, i)
      {
        var kind := Expiry(thresholds[i]);
        ghost var rest := DueExpiry(p, today, fired, i + 1);
        if terms.expiry - today <= thresholds[i] && kind !in fired {
          assert due + ([kind] + rest) == due + [kind] + rest;
          due := due + [kind];
        } else {
          assert [] + rest == rest;
        }
      }
      if today == deadline && NoticeDeadline !in fired {
        due := due + [NoticeDeadline];
      }
    }

    /** run_alert_check; refused, with nothing stored, for a negative notice period. */
    method RunAlertCheck(today: int) returns (ok: bool)
      modifies this`alerts
      ensures (ok <==> terms.noticePeriod >= 0) && (ok <==> NoticeDeadlineOf(terms).Some?)
      ensures alerts == if ok then Checked(PlanOf(terms), old(alerts), today) else old(alerts)
    {
      var deadline := NoticeDeadlineOf(terms);
      if deadline.None? {
        return false;
      }
      var due := DetermineDueAlerts(today, deadline.value, Fired(alerts), THRESHOLDS);
      alerts := alerts + Dated(due, today);
      ok := true;
    }

    /** refresh_status */
    method RefreshStatus(today: int) returns (ok: bool)
      modifies this`status
      ensures (ok <==> terms.noticePeriod >= 0) && (ok <==> NoticeDeadlineOf(terms).Some?)
      ensures status == if ok then StatusOn(terms, NoticeDeadlineOf(terms).value, today) else old(status)
    {
      var deadline := NoticeDeadlineOf(terms);
      if deadline.None? {
        return false;
      }
      status := StatusOn(terms, deadline.value, today);
      ok := true;
    }
  }

  // ---------------------------------------------------------------------------
  // Any series of checks.
  // ---------------------------------------------------------------------------

  /** The alerts stored after checks on the first n of the given days, none stored before. */
  function AfterChecks(p: Plan, days: seq<int>, n: nat): seq<Alert>
    requires n <= |days|
  {
    if n == 0 then [] else Checked(p, AfterChecks(p, days, n - 1), days[n - 1])
  }

  ghost predicate Distinct<T>(items: seq<T>) { forall i, j :: 0 <= i < j < |items| ==> items[i] != items[j] }

  lemma {:induction false} DueExpiryMeans(p: Plan, today: int, fired: set<Kind>, i: nat)
    requires i <= |p.thresholds| && Distinct(p.thresholds)
    ensures var due := DueExpiry(p, today, fired, i);
            && Distinct(due)
            && forall k ::
                 k in due <==> k.Expiry? && k !in fired && k.days in p.thresholds[i..] && p.expiry - today <= k.days
    decreases |p.thresholds| - i
  {
    if i < |p.thresholds| {
      DueExpiryMeans(p, today, fired, i + 1);
      assert p.thresholds[i..] == [p.thresholds[i]] + p.thresholds[i + 1..];
    }
  }

  /** What is due is what the day calls for and has not fired, each kind once. */
  lemma DueMeans(p: Plan, today: int, fired: set<Kind>)
    requires Distinct(p.thresholds)
    ensures var due := Due(p, today, fired);
            && Distinct(due)
            && forall k :: k in due <==> k !in fired && Calls(p, today, k)
  {
    DueExpiryMeans(p, today, fired, 0);
    assert p.thresholds[0..] == p.thresholds;
  }

  /** Every kind is stored at most once, with the day of the first check that called for it. */
  ghost predicate Faithful(p: Plan, days: seq<int>, n: nat, alerts: seq<Alert>)
    requires n <= |days|
  {
    && KindsOnce(alerts)
    && (forall k :: k in Fired(alerts) <==> Called(p, days, n, k))
    && (forall a :: a in alerts ==> FirstCall(p, days, n, a))
  }

  /** Has one of the first n days called for the kind? */
  ghost predicate Called(p: Plan, days: seq<int>, n: nat, k: Kind)
    requires n <= |days|
  {
    exists i :: 0 <= i < n && Calls(p, days[i], k)
  }

  /** Was it first called for on its day? */
  ghost predicate FirstCall(p: Plan, days: seq<int>, n: nat, a: Alert)
    requires n <= |days|
  {
    exists i :: 0 <= i < n && days[i] == a.day && Calls(p, days[i], a.kind) && !Called(p, days, i, a.kind)
  }

  lemma FiredAfter(alerts: seq<Alert>, due: seq<Kind>, day: int, k: Kind)
    ensures k in Fired(alerts + Dated(due, day)) <==> k in Fired(alerts) || k in due
  {
    var dated := Dated(due, day);
    if k in due {
      var j :| 0 <= j < |due| && due[j] == k;
      assert dated[j] in alerts + dated;
    }
    if k in Fired(alerts) {
      var a :| a in alerts && a.kind == k;
      assert a in alerts + dated;
    }
  }

  ghost predicate KindsOnce(alerts: seq<Alert>) {
    forall i, j :: 0 <= i < j < |alerts| ==> alerts[i].kind != alerts[j].kind
  }

  lemma StillOnce(alerts: seq<Alert>, due: seq<Kind>, day: int)
    requires KindsOnce(alerts) && Distinct(due) && forall k :: k in due ==> k !in Fired(alerts)
    ensures KindsOnce(alerts + Dated(due, day))
  {
    var after := alerts + Dated(due, day);
    forall i, j | 0 <= i < j < |after| ensures after[i].kind != after[j].kind {
      if i < |alerts| <= j {
        assert alerts[i] in alerts && alerts[i].kind in Fired(alerts);
        assert due[j - |alerts|] in due;
      }
    }
  }

  lemma {:induction false} ChecksOnce(p: Plan, days: seq<int>, n: nat)
    requires n <= |days| && Distinct(p.thresholds)
    ensures KindsOnce(AfterChecks(p, days, n))
  {
    if n > 0 {
      ChecksOnce(p, days, n - 1);
      var alerts := AfterChecks(p, days, n - 1);
      DueMeans(p, days[n - 1], Fired(alerts));
      StillOnce(alerts, Due(p, days[n - 1], Fired(alerts)), days[n - 1]);
    }
  }

  lemma {:induction false} ChecksFire(p: Plan, days: seq<int>, n: nat, k: Kind)
    requires n <= |days| && Distinct(p.thresholds)
    ensures k in Fired(AfterChecks(p, days, n)) <==> Called(p, days, n, k)
  {
    if n > 0 {
      ChecksFire(p, days, n - 1, k);
      var alerts := AfterChecks(p, days, n - 1);
      DueMeans(p, days[n - 1], Fired(alerts));
      FiredAfter(alerts, Due(p, days[n - 1], Fired(alerts)), days[n - 1], k);
    }
  }

  lemma NewAlertIsCalledFor(p: Plan, alerts: seq<Alert>, day: int, a: Alert)
    requires Distinct(p.thresholds) && a in Checked(p, alerts, day) && a !in alerts
    ensures a.day == day && a.kind !in Fired(alerts) && Calls(p, day, a.kind)
  {
    var due := Due(p, day, Fired(alerts));
    DueMeans(p, day, Fired(alerts));
    var j :| 0 <= j < |due| && Dated(due, day)[j] == a;
    assert due[j] in due;
  }

  lemma {:induction false} ChecksAreFirst(p: Plan, days: seq<int>, n: nat, a: Alert)
    requires n <= |days| && Distinct(p.thresholds) && a in AfterChecks(p, days, n)
    ensures FirstCall(p, days, n, a)
  {
    var alerts := AfterChecks(p, days, n - 1);
    if a in alerts {
      ChecksAreFirst(p, days, n - 1, a);
    } else {
      NewAlertIsCalledFor(p, alerts, days[n - 1], a);
      assert !Called(p, days, n - 1, a.kind) by { ChecksFire(p, days, n - 1, a.kind); }
    }
  }

  /** However often and in whatever order checks are made. */
  lemma ChecksAreFaithful(p: Plan, days: seq<int>, n: nat)
    requires n <= |days| && Distinct(p.thresholds)
    ensures Faithful(p, days, n, AfterChecks(p, days, n))
  {
    var alerts := AfterChecks(p, days, n);
    ChecksOnce(p, days, n);
    forall k ensures k in Fired(alerts) <==> Called(p, days, n, k) { ChecksFire(p, days, n, k); }
    forall a | a in alerts ensures FirstCall(p, days, n, a) { ChecksAreFirst(p, days, n, a); }
  }

  ghost predicate Forward(days: seq<int>) { forall i, j :: 0 <= i < j < |days| ==> days[i] <= days[j] }

  /** Does the latest of the days call for the expiry alert, or does one of them fall on the deadline? */
  ghost predicate CalledAtLast(p: Plan, days: seq<int>, k: Kind)
    requires days != []
  {
    match k
    case Expiry(n) => n in p.thresholds && p.expiry - days[|days| - 1] <= n
    case NoticeDeadline => p.deadline in days
  }

  lemma LatestDayCallsMost(p: Plan, days: seq<int>, k: Kind)
    requires days != [] && Forward(days)
    ensures Called(p, days, |days|, k) <==> CalledAtLast(p, days, k)
  {
    if CalledAtLast(p, days, k) {
      var i := if k.Expiry? then |days| - 1 else var j :| 0 <= j < |days| && days[j] == p.deadline; j;
      assert Calls(p, days[i], k);
    }
  }

  /** As days go by, the expiry alerts stored are those at or above the days left at the latest check, no
      matter how many checks there were before it; the notice alert is stored exactly when a check fell on
      the deadline itself, so skipping that one day loses it for good. */
  lemma AlertsDependOnTheLatestDay(p: Plan, days: seq<int>, k: Kind)
    requires days != [] && Forward(days) && Distinct(p.thresholds)
    ensures k in Fired(AfterChecks(p, days, |days|)) <==> CalledAtLast(p, days, k)
  {
    ChecksFire(p, days, |days|, k);
    LatestDayCallsMost(p, days, k);
  }

  lemma PlanThresholds(t: Terms)
    requires NoticeDeadlineOf(t).Some?
    ensures Distinct(PlanOf(t).thresholds)
  {
  }

  lemma PlanThresholdsAre(t: Terms, n: int)
    requires NoticeDeadlineOf(t).Some?
    ensures n in PlanOf(t).thresholds <==> n in {30, 60, 90, 180}
  {
  }

  /** So of run_alert_check while the terms stay as they are: on whatever days it runs, each alert is stored once,
      on the first day that calls for it ... */
  lemma AlertChecksAreFaithful(t: Terms, days: seq<int>)
    requires NoticeDeadlineOf(t).Some?
    ensures Faithful(PlanOf(t), days, |days|, AfterChecks(PlanOf(t), days, |days|))
  {
    PlanThresholds(t);
    ChecksAreFaithful(PlanOf(t), days, |days|);
  }

  lemma PlanAlertsDepend(t: Terms, days: seq<int>, k: Kind)
    requires NoticeDeadlineOf(t).Some? && days != [] && Forward(days)
    ensures k in Fired(AfterChecks(PlanOf(t), days, |days|)) <==> CalledAtLast(PlanOf(t), days, k)
  {
    PlanThresholds(t);
    AlertsDependOnTheLatestDay(PlanOf(t), days, k);
  }

  /** ... and run as days go by, it has stored the expiry alert of every number of days not below those left at the
      last check, and the notice alert if and only if it ran on the deadline. */
  lemma AlertChecksStore(t: Terms, days: seq<int>, n: int)
    requires NoticeDeadlineOf(t).Some? && days != [] && Forward(days)
    ensures var fired := Fired(AfterChecks(PlanOf(t), days, |days|));
            && (Expiry(n) in fired <==> n in {30, 60, 90, 180} && t.expiry - days[|days| - 1] <= n)
            && (NoticeDeadline in fired <==> t.expiry - t.noticePeriod in days)
  {
    PlanThresholdsAre(t, n);
    PlanAlertsDepend(t, days, Expiry(n));
    PlanAlertsDepend(t, days, NoticeDeadline);
  }

  /** The status of every day: expired after the last day; between the notice deadline and the last day renewing by
      itself or open to notice, as the contract says; up to the deadline active, and expiring soon in the last ninety
      days. */
  lemma StatusMeans(t: Terms, today: int)
    requires NoticeDeadlineOf(t).Some?
    ensures var s := StatusOn(t, NoticeDeadlineOf(t).value, today);
            && (s == Expired <==> t.expiry < today)
            && (s == AutoRenewing <==> t.autoRenew && t.expiry - t.noticePeriod < today <= t.expiry)
            && (s == NoticePeriodOpen <==> !t.autoRenew && t.expiry - t.noticePeriod < today <= t.expiry)
            && (s == ExpiringSoon <==> t.expiry - 90 <= today <= t.expiry - t.noticePeriod)
            && (s == Active <==> today <= t.expiry - t.noticePeriod && today < t.expiry - 90)
  {
  }

  /** With unchanged terms the status never goes back: what has expired stays so, an open notice period or a renewal can
      only end in expiry, and what is expiring soon is never active again. */
  lemma StatusOnlyAdvances(t: Terms, today: int, later: int)
    requires NoticeDeadlineOf(t).Some? && today <= later
    ensures var d := NoticeDeadlineOf(t).value;
            var s, r := StatusOn(t, d, today), StatusOn(t, d, later);
            && (s == Expired ==> r == Expired)
            && (s == NoticePeriodOpen || s == AutoRenewing ==> r == s || r == Expired)
            && (s == ExpiringSoon ==> r != Active)
  {
  }
}
