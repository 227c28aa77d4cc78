/** The scan trigger `GET` of src/app/api/scan/route.ts: an ordered chain
    of guards, a process-wide lock `lastScanTime` taken only once every guard
    passes, and a tally of the per-user alert outcomes. */
module Scan {
  import opened Common

  /** Minimum time between two scans, in milliseconds. */
  const MIN_SCAN_INTERVAL_MS: int := 90_000
  const DEFAULT_SCAN_INTERVAL_MINUTES: int := 15

  /** The admin's settings row; a missing interval is 0 (falsy). */
  datatype AdminSettings = AdminSettings(masterSwitch: bool, workStart: string, workEnd: string, scanInterval: int)

  /** Webhook target of the admin user who receives scan reports. */
  datatype AdminContact = AdminContact(webhookUrl: string, phoneNumber: string)

  /** What the analysis of one user reported: an alert status, none at all,
      or an exception. */
  datatype UserOutcome = StatusSent | StatusSkipped | StatusFailed | NoStatus | Threw

  datatype Stats = Stats(totalUsersChecked: nat, messagesSentTotal: nat, skippedTotal: nat, errors: nat)

  /** Why a call returned `triggered: false`. */
  datatype SkipReason =
    | MasterSwitchOff
    | OutsideWorkingHours
    | RecentScan(waitSeconds: int)     // in-memory lock
    | RecentScanDb(agoSeconds: int)    // last scan log row

  datatype ScanResponse =
    | Skipped(reason: SkipReason, nextCheck: int)
    | Triggered(stats: Stats, nextCheck: int)

  /** One admin report handed to the webhook transport. */
  datatype AdminReport = AdminReport(webhookUrl: string, phoneNumber: string, stats: Stats)

  // ---------------------------------------------------------------------
  // The guards.

  /** `Math.ceil(n / d)` for a positive divisor. */
  function CeilDiv(n: int, d: int): (r: int)
    requires d > 0
    ensures d * (r - 1) < n <= d * r
  {
    -((-n) / d)
  }

  /** Seconds until the lock expires, `elapsed` ms after the last scan. */
  function WaitSeconds(elapsed: int): int
  {
    CeilDiv(MIN_SCAN_INTERVAL_MS - elapsed, 1000)
  }

  /** While the lock holds (0 <= elapsed < 90 s) the reported wait is
      between 1 and 90 seconds. */
  lemma WaitSecondsRange(elapsed: int)
    requires 0 <= elapsed < MIN_SCAN_INTERVAL_MS
    ensures 1 <= WaitSeconds(elapsed) <= 90
  {
    var r := WaitSeconds(elapsed);
    assert 1000 * (r - 1) < MIN_SCAN_INTERVAL_MS - elapsed <= 1000 * r;
  }

  predicate MasterSwitchOffIn(admin: Option<AdminSettings>)
  {
    admin.Some? && !admin.value.masterSwitch
  }

  function WorkStart(admin: Option<AdminSettings>): string
  {
    if admin.Some? then OrDefault(admin.value.workStart, DEFAULT_WORK_START) else DEFAULT_WORK_START
  }

  function WorkEnd(admin: Option<AdminSettings>): string
  {
    if admin.Some? then OrDefault(admin.value.workEnd, DEFAULT_WORK_END) else DEFAULT_WORK_END
  }

  /** `lastScanTime && currentTime - lastScanTime < 90000`: a stored 0 is
      falsy and never throttles. */
  predicate LockHeld(lastScanTime: Option<int>, now: int)
  {
    lastScanTime.Some? && lastScanTime.value != 0 && now - lastScanTime.value < MIN_SCAN_INTERVAL_MS
  }

  predicate DbLogRecent(lastDbLogTime: Option<int>, now: int)
  {
    lastDbLogTime.Some? && now - lastDbLogTime.value < MIN_SCAN_INTERVAL_MS
  }

  /** The first failing guard, in the order master switch, working hours,
      in-memory lock, last scan log; none when all pass. */
  function Gate(admin: Option<AdminSettings>, spTime: string, now: int,
                lastScanTime: Option<int>, lastDbLogTime: Option<int>): (r: Option<SkipReason>)
    ensures r == Some(MasterSwitchOff) <==> MasterSwitchOffIn(admin)
    ensures r == Some(OutsideWorkingHours) <==>
              !MasterSwitchOffIn(admin) && !InWindow(spTime, WorkStart(admin), WorkEnd(admin))
    ensures r.Some? && r.value.RecentScan? <==>
              !MasterSwitchOffIn(admin) && InWindow(spTime, WorkStart(admin), WorkEnd(admin)) &&
              LockHeld(lastScanTime, now)
    ensures r.None? <==>
              !MasterSwitchOffIn(admin) && InWindow(spTime, WorkStart(admin), WorkEnd(admin)) &&
              !LockHeld(lastScanTime, now) && !DbLogRecent(lastDbLogTime, now)
  {
    if MasterSwitchOffIn(admin) then Some(MasterSwitchOff)
    else if LexLess(spTime, WorkStart(admin)) || LexLess(WorkEnd(admin), spTime) then Some(OutsideWorkingHours)
    else if LockHeld(lastScanTime, now) then Some(RecentScan(WaitSeconds(now - lastScanTime.value)))
    else if DbLogRecent(lastDbLogTime, now) then Some(RecentScanDb(CeilDiv(now - lastDbLogTime.value, 1000)))
    else None
  }

  /** After a scan that passed at `t` (a non-zero instant) and took the
      lock, a later call starting less than 90 s after it that gets past the
      switch and the hours is refused by the lock, with a wait of 1 to 90 s
      when the clock has not gone back. This covers calls that run one after
      the other, not two calls whose guards interleave. */
  lemma LockRefusesFollowUp(admin: Option<AdminSettings>, spTime: string, t: int, t2: int, lastDbLogTime: Option<int>)
    requires t != 0 && t2 - t < MIN_SCAN_INTERVAL_MS
    requires !MasterSwitchOffIn(admin) && InWindow(spTime, WorkStart(admin), WorkEnd(admin))
    ensures Gate(admin, spTime, t2, Some(t), lastDbLogTime) == Some(RecentScan(WaitSeconds(t2 - t)))
    ensures t <= t2 ==> 1 <= WaitSeconds(t2 - t) <= 90
  {
    if t <= t2 {
      WaitSecondsRange(t2 - t);
    }
  }

  /** `nextCheck` of a completed scan: the admin's interval in minutes, or
      15 when it is unset or 0. */
  function NextCheck(admin: Option<AdminSettings>): (ms: int)
    ensures admin.None? || admin.value.scanInterval == 0 ==> ms == 900_000
    ensures admin.Some? && admin.value.scanInterval != 0 ==> ms == admin.value.scanInterval * 60_000
  {
    var minutes := if admin.Some? && admin.value.scanInterval != 0 then admin.value.scanInterval
                   else DEFAULT_SCAN_INTERVAL_MINUTES;
    minutes * 60 * 1000
  }

  // ---------------------------------------------------------------------
  // The tally.

  /** Number of users whose outcome is `k`. */
  function CountOf(users: seq<UserOutcome>, k: UserOutcome): (n: nat)
    ensures n <= |users|
  {
    if |users| == 0 then 0
    else CountOf(users[..|users| - 1], k) + (if users[|users| - 1] == k then 1 else 0)
  }

  /** Each user adds to at most one counter: sent, skipped and errors never
      exceed the users checked. */
  lemma {:induction false} CountsBounded(users: seq<UserOutcome>)
    ensures CountOf(users, StatusSent) + CountOf(users, StatusSkipped)
            + CountOf(users, StatusFailed) + CountOf(users, Threw) <= |users|
  {
    if |users| > 0 {
      CountsBounded(users[..|users| - 1]);
    }
  }

  /** The stats of a scan over `users`: a failure status and an exception
      both count as errors, a missing status counts nowhere. */
  function StatsOf(users: seq<UserOutcome>): (s: Stats)
    ensures s.messagesSentTotal + s.skippedTotal + s.errors <= s.totalUsersChecked
    ensures s.totalUsersChecked == |users|
  {
    CountsBounded(users);
    Stats(|users|, CountOf(users, StatusSent), CountOf(users, StatusSkipped),
          CountOf(users, StatusFailed) + CountOf(users, Threw))
  }

  /** The loop over users that increments the counters. */
  method Tally(users: seq<UserOutcome>) returns (stats: Stats)
    ensures stats == StatsOf(users)
    ensures stats.messagesSentTotal + stats.skippedTotal + stats.errors <= stats.totalUsersChecked
  {
    stats := Stats(|users|, 0, 0, 0);
    var i := 0;
    while i < |users|
      invariant 0 <= i <= |users|
      invariant stats == Stats(|users|, CountOf(users[..i], StatusSent), CountOf(users[..i], StatusSkipped),
                               CountOf(users[..i], StatusFailed) + CountOf(users[..i], Threw))
    {
      assert users[..i + 1][..i] == users[..i];
      match users[i] {
        case StatusSent => stats := stats.(messagesSentTotal := stats.messagesSentTotal + 1);
        case StatusSkipped => stats := stats.(skippedTotal := stats.skippedTotal + 1);
        case StatusFailed => stats := stats.(errors := stats.errors + 1);
        case NoStatus =>
        case Threw => stats := stats.(errors := stats.errors + 1);
      }
      i := i + 1;
    }
    assert users[..|users|] == users;
  }

  /** The scan log row: warning exactly when some user had an error. */
  function ScanLog(s: Stats): (row: LogEntry)
    ensures row.level == Warning <==> s.errors > 0
    ensures row.level == Info <==> s.errors == 0
  {
    LogEntry("🔄 Varredura automática via interface — " + NatToString(s.messagesSentTotal) + " enviadas, "
             + NatToString(s.skippedTotal) + " retidas, " + NatToString(s.errors) + " erros.",
             if s.errors > 0 then Warning else Info)
  }

  /** The admin report is attempted only when something was sent and the
      admin has both a webhook URL and a phone number. */
  function ReportFor(s: Stats, contact: Option<AdminContact>): (r: seq<AdminReport>)
    ensures |r| == 1 <==> s.messagesSentTotal > 0 && contact.Some? &&
                          contact.value.webhookUrl != "" && contact.value.phoneNumber != ""
    ensures |r| <= 1
  {
    if s.messagesSentTotal > 0 && contact.Some? && contact.value.webhookUrl != "" && contact.value.phoneNumber != ""
    then [AdminReport(contact.value.webhookUrl, contact.value.phoneNumber, s)]
    else []
  }

  // ---------------------------------------------------------------------
  // The route.

  /** The module-level lock, the system log rows this route appends and the
      admin reports it hands to the webhook transport. */
  class Scanner {
    var lastScanTime: Option<int>
    var logs: seq<LogEntry>
    var reports: seq<AdminReport>

    constructor ()
      ensures lastScanTime == None && logs == [] && reports == []
    {
      lastScanTime := None;
      logs := [];
      reports := [];
    }

    /** The guard chain of the route, returning the first refusal; reads
        the lock and changes nothing. */
    method Guards(now: int, spTime: string, admin: Option<AdminSettings>, lastDbLogTime: Option<int>)
      returns (refusal: Option<SkipReason>)
      ensures refusal == Gate(admin, spTime, now, lastScanTime, lastDbLogTime)
    {
      if admin.Some? && admin.value.masterSwitch == false {
        return Some(MasterSwitchOff);
      }

      var workStart := if admin.Some? then OrDefault(admin.value.workStart, DEFAULT_WORK_START) else DEFAULT_WORK_START;
      var workEnd := if admin.Some? then OrDefault(admin.value.workEnd, DEFAULT_WORK_END) else DEFAULT_WORK_END;
      if LexLess(spTime, workStart) || LexLess(workEnd, spTime) {
        return Some(OutsideWorkingHours);
      }

      if lastScanTime.Some? && lastScanTime.value != 0 && now - lastScanTime.value < MIN_SCAN_INTERVAL_MS {
        var waitSeconds := CeilDiv(MIN_SCAN_INTERVAL_MS - (now - lastScanTime.value), 1000);
        return Some(RecentScan(waitSeconds));
      }

      if lastDbLogTime.Some? {
        var dbTimeDiff := now - lastDbLogTime.value;
        if dbTimeDiff < MIN_SCAN_INTERVAL_MS {
          return Some(RecentScanDb(CeilDiv(dbTimeDiff, 1000)));
        }
      }
      return None;
    }

    /** One GET: `now` is `Date.now()`, `spTime` the São Paulo "HH:MM"
        reading, `lastDbLogTime` the time of the latest scan log row,
        `users` the outcome of each user with automatic alerts, `contact`
        the admin's webhook target. A failing admin report is swallowed. */
    method Trigger(now: int, spTime: string, admin: Option<AdminSettings>, lastDbLogTime: Option<int>,
                   users: seq<UserOutcome>, contact: Option<AdminContact>) returns (response: ScanResponse)
      modifies this
      ensures var gate := Gate(admin, spTime, now, old(lastScanTime), lastDbLogTime);
              gate.Some? ==>
                response == Skipped(gate.value, MIN_SCAN_INTERVAL_MS) &&
                lastScanTime == old(lastScanTime) && logs == old(logs) && reports == old(reports)
      ensures var gate := Gate(admin, spTime, now, old(lastScanTime), lastDbLogTime);
              gate.None? ==>
                response == Triggered(StatsOf(users), NextCheck(admin)) &&
                lastScanTime == Some(now) &&
                logs == old(logs) + [ScanLog(StatsOf(users))] &&
                reports == old(reports) + ReportFor(StatsOf(users), contact)
    {
      var refusal := Guards(now, spTime, admin, lastDbLogTime);
      if refusal.Some? {
        return Skipped(refusal.value, MIN_SCAN_INTERVAL_MS);
      }
      var currentTime := now;
      lastScanTime := Some(currentTime);

      var stats := Tally(users);
      logs := logs + [ScanLog(stats)];

      if stats.messagesSentTotal > 0 {
        if contact.Some? && contact.value.webhookUrl != "" && contact.value.phoneNumber != "" {
          reports := reports + [AdminReport(contact.value.webhookUrl, contact.value.phoneNumber, stats)];
        }
      }

      var scanIntervalMs := (if admin.Some? && admin.value.scanInterval != 0 then admin.value.scanInterval
                             else DEFAULT_SCAN_INTERVAL_MINUTES) * 60 * 1000;
      response := Triggered(stats, scanIntervalMs);
    }
  }
}
