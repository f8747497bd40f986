// Listing reports: the sliding-window limits on submissions and the triage of
// reports by staff.
module Reports {
  import opened Wrappers

  type Time = int

  const SECOND: int := 1_000_000

  // REPORT_RATE_WINDOW_SECONDS and the three limits; any integers are accepted.
  datatype Limits = Limits(windowSeconds: int, source: int, listing: int, user: int) {
    function Window(): int { windowSeconds * SECOND }
  }

  datatype ReportState = Open | Acknowledged | Resolved | Dismissed | Escalated

  // What submissions are counted by. A fingerprint is the keyed digest of the
  // listing, the reason, the normalised description and the source.
  datatype Key =
    | BySource(source: string)
    | ByListing(listing: nat)
    | ByReporter(reporter: nat)
    | ByFingerprint(fingerprint: string)

  datatype Report = Report(
    listing: nat,
    reporter: Option<nat>,
    source: string,
    fingerprint: string,
    state: ReportState,
    assignee: Option<nat>,
    createdAt: Time)

  datatype Submission = Submission(listing: nat, reporter: Option<nat>, source: string, fingerprint: string)

  datatype TriageKind = SubmittedReport | AcknowledgedReport | ResolvedReport | DismissedReport | EscalatedReport

  datatype Triage = Triage(report: nat, kind: TriageKind, from: ReportState, to: ReportState, actor: Option<nat>)

  datatype TriageError = Denied | InvalidAction | NoSuchReport | ClosedReport

  datatype TriageAction = Acknowledge | Resolve | Dismiss | Escalate

  function TargetState(action: TriageAction): ReportState {
    match action
    case Acknowledge => Acknowledged
    case Resolve => Resolved
    case Dismiss => Dismissed
    case Escalate => Escalated
  }

  function TargetKind(action: TriageAction): TriageKind {
    match action
    case Acknowledge => AcknowledgedReport
    case Resolve => ResolvedReport
    case Dismiss => DismissedReport
    case Escalate => EscalatedReport
  }

  // The state an action leads to and the history row it leaves.
  ghost predicate Leads(action: TriageAction, state: ReportState, kind: TriageKind) {
    || (action == Acknowledge && state == Acknowledged && kind == AcknowledgedReport)
    || (action == Resolve && state == Resolved && kind == ResolvedReport)
    || (action == Dismiss && state == Dismissed && kind == DismissedReport)
    || (action == Escalate && state == Escalated && kind == EscalatedReport)
  }

  predicate Closed(s: ReportState) {
    s == Resolved || s == Dismissed
  }

  // ---- counting in a window ----

  predicate Matches(r: Report, key: Key) {
    match key
    case BySource(source) => r.source == source
    case ByListing(listing) => r.listing == listing
    case ByReporter(reporter) => r.reporter == Some(reporter)
    case ByFingerprint(fingerprint) => r.fingerprint == fingerprint
  }

  // How many reports of a key one window may hold; one fingerprint is enough.
  function LimitOf(limits: Limits, key: Key): int {
    match key
    case BySource(_) => limits.source
    case ByListing(_) => limits.listing
    case ByReporter(_) => limits.user
    case ByFingerprint(_) => 1
  }

  function Since(reports: seq<Report>, since: Time, key: Key): set<nat> {
    set i | 0 <= i < |reports| && reports[i].createdAt >= since && Matches(reports[i], key)
  }

  function Between(reports: seq<Report>, first: Time, last: Time, key: Key): set<nat> {
    set i | 0 <= i < |reports| && first <= reports[i].createdAt <= last && Matches(reports[i], key)
  }

  predicate KeyOf(s: Submission, key: Key) {
    match key
    case BySource(source) => s.source == source
    case ByListing(listing) => s.listing == listing
    case ByReporter(reporter) => s.reporter == Some(reporter)
    case ByFingerprint(fingerprint) => s.fingerprint == fingerprint
  }

  // The limits leave room for a submission checked at a time. An anonymous
  // submission counts as the first of its reporter.
  ghost predicate Admitted(limits: Limits, reports: seq<Report>, s: Submission, now: Time) {
    && (forall key :: KeyOf(s, key) ==> |Since(reports, now - limits.Window(), key)| < LimitOf(limits, key))
    && (s.reporter.None? ==> 0 < limits.user)
  }

  // The service looks at four counts.
  lemma AdmissionByCounts(limits: Limits, reports: seq<Report>, s: Submission, now: Time)
    ensures var since := now - limits.Window();
      Admitted(limits, reports, s, now) <==>
        && |Since(reports, since, BySource(s.source))| < limits.source
        && |Since(reports, since, ByListing(s.listing))| < limits.listing
        && (if s.reporter.Some? then |Since(reports, since, ByReporter(s.reporter.value))| else 0) < limits.user
        && Since(reports, since, ByFingerprint(s.fingerprint)) == {}
  {
    var since := now - limits.Window();
    assert KeyOf(s, BySource(s.source)) && KeyOf(s, ByListing(s.listing)) && KeyOf(s, ByFingerprint(s.fingerprint));
    assert s.reporter.Some? ==> KeyOf(s, ByReporter(s.reporter.value));
    assert LimitOf(limits, ByFingerprint(s.fingerprint)) == 1;
  }

  // Since one window ago there were fewer reports than each limit: from the
  // source, on the listing and by the reporter, and none with the fingerprint.
  ghost predicate RoomFor(limits: Limits, reports: seq<Report>, s: Submission, now: Time) {
    var recent := set i | 0 <= i < |reports| && reports[i].createdAt >= now - limits.windowSeconds * SECOND;
    && |set i | i in recent && reports[i].source == s.source| < limits.source
    && |set i | i in recent && reports[i].listing == s.listing| < limits.listing
    && (if s.reporter.None? then 0 else |set i | i in recent && reports[i].reporter == s.reporter|) < limits.user
    && forall i :: i in recent ==> reports[i].fingerprint != s.fingerprint
  }

  lemma AdmittedMeansRoom(limits: Limits, reports: seq<Report>, s: Submission, now: Time)
    ensures Admitted(limits, reports, s, now) <==> RoomFor(limits, reports, s, now)
  {
    AdmissionByCounts(limits, reports, s, now);
    hide Admitted;
    var since := now - limits.Window();
    var recent := set i | 0 <= i < |reports| && reports[i].createdAt >= since;
    assert Since(reports, since, BySource(s.source)) == set i | i in recent && reports[i].source == s.source;
    assert Since(reports, since, ByListing(s.listing)) == set i | i in recent && reports[i].listing == s.listing;
    if s.reporter.Some? {
      assert Since(reports, since, ByReporter(s.reporter.value))
        == set i | i in recent && reports[i].reporter == s.reporter;
    }
    var same := set i | i in recent && reports[i].fingerprint == s.fingerprint;
    assert Since(reports, since, ByFingerprint(s.fingerprint)) == same;
    assert same == {} <==> forall i :: i in recent ==> reports[i].fingerprint != s.fingerprint by {
      assert forall i :: i in recent && reports[i].fingerprint == s.fingerprint ==> i in same;
    }
  }

  ghost predicate InOrder(reports: seq<Report>) {
    forall i, j :: 0 <= i < j < |reports| ==> reports[i].createdAt <= reports[j].createdAt
  }

  // Each report left room for itself in the window that ends when it was stored.
  ghost predicate Limited(limits: Limits, reports: seq<Report>) {
    forall i, key :: 0 <= i < |reports| && Matches(reports[i], key) ==>
      |Since(reports[..i], reports[i].createdAt - limits.Window(), key)| < LimitOf(limits, key)
  }

  lemma SubsetCount(a: set<nat>, b: set<nat>)
    requires a <= b
    ensures |a| <= |b|
  {
    assert b == a + (b - a);
  }

  // Storing an admitted report keeps every report within its window: the row
  // is stored no earlier than its check.
  lemma AdmittedKeepsLimited(limits: Limits, reports: seq<Report>, s: Submission, now: Time, r: Report)
    requires Limited(limits, reports) && Admitted(limits, reports, s, now) && now <= r.createdAt
    requires r.listing == s.listing && r.reporter == s.reporter && r.source == s.source
      && r.fingerprint == s.fingerprint
    ensures Limited(limits, reports + [r])
  {
    var more := reports + [r];
    forall i, key | 0 <= i < |more| && Matches(more[i], key)
      ensures |Since(more[..i], more[i].createdAt - limits.Window(), key)| < LimitOf(limits, key)
    {
      assert more[..i] == reports[..i];
      if i == |reports| {
        assert reports[..i] == reports && KeyOf(s, key);
        SubsetCount(Since(reports, r.createdAt - limits.Window(), key), Since(reports, now - limits.Window(), key));
      }
    }
  }

  lemma Latest(ids: set<nat>) returns (last: nat)
    requires ids != {}
    ensures last in ids && forall i :: i in ids ==> i <= last
  {
    last :| last in ids;
    var rest := ids - {last};
    while rest != {}
      invariant last in ids && rest <= ids
      invariant forall i :: i in ids ==> i in rest || i <= last
      decreases rest
    {
      var i :| i in rest;
      rest := rest - {i};
      last := if i > last then i else last;
    }
  }

  // Every interval of the window's length, not only those ending at a check,
  // holds at most the limit of reports of each source, listing, reporter and
  // fingerprint.
  lemma EveryWindowIsLimited(limits: Limits, reports: seq<Report>, first: Time, key: Key)
    requires InOrder(reports) && Limited(limits, reports)
    ensures |Between(reports, first, first + limits.Window(), key)|
            <= if LimitOf(limits, key) > 0 then LimitOf(limits, key) else 0
  {
    var inside := Between(reports, first, first + limits.Window(), key);
    if inside != {} {
      var last := Latest(inside);
      var before := Since(reports[..last], reports[last].createdAt - limits.Window(), key);
      forall i | i in inside - {last}
        ensures i in before
      {
        assert i < last;
      }
      SubsetCount(inside - {last}, before);
      assert |before| < LimitOf(limits, key);
    }
  }

  function Inside(limits: Limits, reports: seq<Report>, first: Time): set<nat> {
    set i | 0 <= i < |reports| && first <= reports[i].createdAt <= first + limits.windowSeconds * SECOND
  }

  // In the terms of the four limits: no interval of the window's length holds
  // more reports than the limit of one source, listing or reporter, nor two with
  // one fingerprint.
  lemma EveryWindowByKind(limits: Limits, reports: seq<Report>, first: Time, r: Report, reporter: nat)
    requires InOrder(reports) && Limited(limits, reports)
    ensures var inside := Inside(limits, reports, first);
      && |set i | i in inside && reports[i].source == r.source| <= (if limits.source > 0 then limits.source else 0)
      && |set i | i in inside && reports[i].listing == r.listing| <= (if limits.listing > 0 then limits.listing else 0)
      && |set i | i in inside && reports[i].reporter == Some(reporter)| <= (if limits.user > 0 then limits.user else 0)
      && |set i | i in inside && reports[i].fingerprint == r.fingerprint| <= 1
  {
    EveryWindowIsLimited(limits, reports, first, BySource(r.source));
    EveryWindowIsLimited(limits, reports, first, ByListing(r.listing));
    EveryWindowIsLimited(limits, reports, first, ByReporter(reporter));
    EveryWindowIsLimited(limits, reports, first, ByFingerprint(r.fingerprint));
    InsideByKind(limits, reports, first, r, reporter);
    hide InOrder, Limited, Between, Inside;
  }

  lemma InsideByKind(limits: Limits, reports: seq<Report>, first: Time, r: Report, reporter: nat)
    ensures var inside, last := Inside(limits, reports, first), first + limits.Window();
      && Between(reports, first, last, BySource(r.source)) == (set i | i in inside && reports[i].source == r.source)
      && Between(reports, first, last, ByListing(r.listing)) == (set i | i in inside && reports[i].listing == r.listing)
      && Between(reports, first, last, ByReporter(reporter)) ==
         (set i | i in inside && reports[i].reporter == Some(reporter))
      && Between(reports, first, last, ByFingerprint(r.fingerprint)) ==
         (set i | i in inside && reports[i].fingerprint == r.fingerprint)
  {
  }

  // One of the submission's windows ending at a time is full.
  ghost predicate SomeWindowFull(limits: Limits, reports: seq<Report>, s: Submission, now: Time) {
    exists key :: KeyOf(s, key) && |Between(reports, now - limits.Window(), now, key)| >= LimitOf(limits, key)
  }

  // A full window refuses, and with no report later than the check nothing else
  // does, except that a limit of no reports per user refuses anonymous ones too.
  lemma RefusedExactlyWhenFull(limits: Limits, reports: seq<Report>, s: Submission, now: Time)
    ensures SomeWindowFull(limits, reports, s, now) ==> !Admitted(limits, reports, s, now)
    ensures (forall i :: 0 <= i < |reports| ==> reports[i].createdAt <= now) ==>
      (!Admitted(limits, reports, s, now) <==>
        SomeWindowFull(limits, reports, s, now) || (s.reporter.None? && limits.user <= 0))
  {
    var since := now - limits.Window();
    forall key
      ensures |Between(reports, since, now, key)| <= |Since(reports, since, key)|
    {
      SubsetCount(Between(reports, since, now, key), Since(reports, since, key));
    }
    if forall i :: 0 <= i < |reports| ==> reports[i].createdAt <= now {
      forall key
        ensures Between(reports, since, now, key) == Since(reports, since, key)
      {
      }
    }
  }

  // ---- the triage history ----

  // The state the actions on one report lead to from OPEN, if they are a chain.
  function Follow(actions: seq<Triage>, report: nat): Option<ReportState> {
    if actions == [] then Some(Open)
    else
      var last := actions[|actions| - 1];
      var before := Follow(actions[..|actions| - 1], report);
      if last.report != report then before
      else if before == Some(last.from) then Some(last.to)
      else None
  }

  lemma FollowAppend(actions: seq<Triage>, a: Triage, report: nat)
    ensures Follow(actions + [a], report) ==
      if a.report != report then Follow(actions, report)
      else if Follow(actions, report) == Some(a.from) then Some(a.to)
      else None
  {
    assert (actions + [a])[..|actions|] == actions;
  }

  lemma {:induction false} FollowNone(actions: seq<Triage>, report: nat)
    requires forall i :: 0 <= i < |actions| ==> actions[i].report != report
    ensures Follow(actions, report) == Some(Open)
  {
    if actions != [] {
      FollowNone(actions[..|actions| - 1], report);
    }
  }

  // The last action on a report leads to its state.
  lemma {:induction false} FollowLast(actions: seq<Triage>, i: nat, report: nat)
    requires i < |actions| && actions[i].report == report && Follow(actions, report).Some?
    requires forall j :: i < j < |actions| ==> actions[j].report != report
    ensures Follow(actions, report) == Some(actions[i].to)
  {
    if i < |actions| - 1 {
      FollowLast(actions[..|actions| - 1], i, report);
    }
  }

  // An action that closes a report is the last one on it.
  ghost predicate ClosingIsLast(actions: seq<Triage>) {
    forall i, j :: 0 <= i < j < |actions| && actions[i].report == actions[j].report ==> !Closed(actions[i].to)
  }

  ghost predicate Histories(reports: seq<Report>, actions: seq<Triage>) {
    && (forall i :: 0 <= i < |actions| ==> actions[i].report < |reports|)
    && (forall id :: 0 <= id < |reports| ==> Follow(actions, id) == Some(reports[id].state))
    && ClosingIsLast(actions)
  }

  // The next action on a report that is not closed.
  lemma ActionKeepsHistories(reports: seq<Report>, actions: seq<Triage>, a: Triage, after: seq<Report>)
    requires Histories(reports, actions) && a.report < |reports| && a.from == reports[a.report].state && !Closed(a.from)
    requires |after| == |reports| && after[a.report].state == a.to
    requires forall id :: 0 <= id < |reports| && id != a.report ==> after[id].state == reports[id].state
    ensures Histories(after, actions + [a])
  {
    forall id | 0 <= id < |after|
      ensures Follow(actions + [a], id) == Some(after[id].state)
    {
      FollowAppend(actions, a, id);
    }
    forall i, j | 0 <= i < j < |actions| + 1 && (actions + [a])[i].report == (actions + [a])[j].report
      ensures !Closed((actions + [a])[i].to)
    {
      if j == |actions| {
        OpenHasNoClosing(actions, a.report, i);
      }
    }
  }

  lemma {:induction false} OpenHasNoClosing(actions: seq<Triage>, report: nat, i: nat)
    requires i < |actions| && actions[i].report == report && ClosingIsLast(actions)
    requires Follow(actions, report).Some? && !Closed(Follow(actions, report).value)
    ensures !Closed(actions[i].to)
  {
    if forall j :: i < j < |actions| ==> actions[j].report != report {
      FollowLast(actions, i, report);
    }
  }

  lemma SubmissionKeepsHistories(reports: seq<Report>, actions: seq<Triage>, r: Report, actor: Option<nat>)
    requires Histories(reports, actions) && r.state == Open
    ensures Histories(reports + [r], actions + [Triage(|reports|, SubmittedReport, Open, Open, actor)])
  {
    var a := Triage(|reports|, SubmittedReport, Open, Open, actor);
    forall id | 0 <= id < |reports| + 1
      ensures Follow(actions + [a], id) == Some((reports + [r])[id].state)
    {
      FollowAppend(actions, a, id);
      if id == |reports| {
        FollowNone(actions, id);
      }
    }
  }

  // In a history without gaps a report's state is the target of its last
  // action, and it is closed exactly when some action closed it.
  lemma ClosedByItsLastAction(reports: seq<Report>, actions: seq<Triage>, i: nat)
    requires Histories(reports, actions) && i < |actions|
    ensures (forall j :: i < j < |actions| ==> actions[j].report != actions[i].report) ==>
      reports[actions[i].report].state == actions[i].to
    ensures Closed(actions[i].to) ==>
      Closed(reports[actions[i].report].state)
        && forall j :: i < j < |actions| ==> actions[j].report != actions[i].report
  {
    if forall j :: i < j < |actions| ==> actions[j].report != actions[i].report {
      FollowLast(actions, i, actions[i].report);
    }
  }

  class ReportDesk {
    const limits: Limits
    var clock: Time
    var reports: seq<Report>
    var actions: seq<Triage>

    ghost predicate Valid()
      reads this
    {
      && InOrder(reports) && Limited(limits, reports) && Histories(reports, actions)
      && forall i :: 0 <= i < |reports| ==> reports[i].createdAt <= clock
    }

    constructor (limits: Limits, now: Time)
      ensures Valid() && this.limits == limits && reports == [] && actions == [] && clock == now
    {
      this.limits := limits;
      clock := now;
      reports, actions := [], [];
    }

    // Checked at now and stored at created: the clock never runs backwards.
    method SubmitReport(visible: bool, s: Submission, now: Time, created: Time) returns (id: Option<nat>)
      requires Valid() && clock <= now <= created
      modifies this
      ensures Valid() && clock == created
      ensures id.Some? <==> visible && Admitted(limits, old(reports), s, now)
      ensures id.Some? <==> visible && RoomFor(limits, old(reports), s, now)
      ensures id.Some? ==>
        && id.value == |old(reports)|
        && reports == old(reports) + [Report(s.listing, s.reporter, s.source, s.fingerprint, Open, None, created)]
        && actions == old(actions) + [Triage(id.value, SubmittedReport, Open, Open, s.reporter)]
      ensures id.None? ==> reports == old(reports) && actions == old(actions)
    {
      hide Admitted, Limited, Histories, RoomFor;
      clock := created;
      if !visible {
        return None;
      }
      var since := now - limits.Window();
      var sourceCount := |Since(reports, since, BySource(s.source))|;
      var listingCount := |Since(reports, since, ByListing(s.listing))|;
      var userCount := if s.reporter.Some? then |Since(reports, since, ByReporter(s.reporter.value))| else 0;
      var duplicate := Since(reports, since, ByFingerprint(s.fingerprint)) != {};
      AdmissionByCounts(limits, reports, s, now);
      AdmittedMeansRoom(limits, reports, s, now);
      if sourceCount >= limits.source || listingCount >= limits.listing || userCount >= limits.user || duplicate {
        return None;
      }
      var report := Report(s.listing, s.reporter, s.source, s.fingerprint, Open, None, created);
      AdmittedKeepsLimited(limits, reports, s, now, report);
      SubmissionKeepsHistories(reports, actions, report, s.reporter);
      id := Some(|reports|);
      reports := reports + [report];
      actions := actions + [Triage(id.value, SubmittedReport, Open, Open, s.reporter)];
    }

    // Staff move a report that is not closed to one of four states.
    method TransitionReport(permitted: bool, id: nat, actor: nat, action: Option<TriageAction>)
      returns (error: Option<TriageError>)
      requires Valid()
      modifies this`reports, this`actions
      ensures Valid()
      ensures error ==
        if !permitted then Some(Denied)
        else if action.None? then Some(InvalidAction)
        else if id >= |old(reports)| then Some(NoSuchReport)
        else if Closed(old(reports)[id].state) then Some(ClosedReport)
        else None
      ensures error == Some(ClosedReport) <==>
        && permitted && action.Some? && id < |old(reports)|
        && (old(reports)[id].state == Resolved || old(reports)[id].state == Dismissed)
      ensures error.None? ==>
        && |reports| == |old(reports)| && |actions| == |old(actions)| + 1
        && Leads(action.value, reports[id].state, actions[|actions| - 1].kind)
        && reports[id].assignee == Some(actor)
      ensures error.None? ==>
        && reports == old(reports)[id := old(reports)[id].(state := TargetState(action.value), assignee := Some(actor))]
        && actions == old(actions)
          + [Triage(id, TargetKind(action.value), old(reports)[id].state, TargetState(action.value), Some(actor))]
      ensures error.Some? ==> reports == old(reports) && actions == old(actions)
    {
      if !permitted {
        return Some(Denied);
      }
      if action.None? {
        return Some(InvalidAction);
      }
      if id >= |reports| {
        return Some(NoSuchReport);
      }
      var report := reports[id];
      if Closed(report.state) {
        return Some(ClosedReport);
      }
      ghost var before := reports;
      var from := report.state;
      report := report.(state := TargetState(action.value), assignee := Some(actor));
      var done := Triage(id, TargetKind(action.value), from, report.state, Some(actor));
      ActionKeepsHistories(reports, actions, done, reports[id := report]);
      TriageKeepsLimited(limits, reports, reports[id := report]);
      reports := reports[id := report];
      actions := actions + [done];
      error := None;
    }
  }

  // Triage changes nothing the limits look at.
  lemma TriageKeepsLimited(limits: Limits, a: seq<Report>, b: seq<Report>)
    requires Limited(limits, a) && |a| == |b|
    requires forall i :: 0 <= i < |a| ==> b[i] == a[i].(state := b[i].state, assignee := b[i].assignee)
    ensures Limited(limits, b)
  {
    forall i, key | 0 <= i < |b| && Matches(b[i], key)
      ensures |Since(b[..i], b[i].createdAt - limits.Window(), key)| < LimitOf(limits, key)
    {
      assert Matches(a[i], key);
      assert Since(b[..i], b[i].createdAt - limits.Window(), key)
        == Since(a[..i], a[i].createdAt - limits.Window(), key);
    }
  }
}
