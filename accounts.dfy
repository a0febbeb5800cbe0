/**
 * User accounts: the `profiles` table (tier, daily analysis count, date of
 * the last reset, billing ids) and the `usage_logs` table, with the daily
 * quota of the free tier. The hosted database is modelled as the two tables
 * it holds; today's date is a parameter.
 */
module Accounts {
  import opened Common

  type UserId = string

  const FreeTier: string := "free"

  /** The free-tier daily limit (the value used when the environment does
      not override it). */
  const FreeTierDailyLimit: nat := 3

  /** A row of `profiles`. */
  datatype Profile = Profile(
    tier: string,
    analysesToday: nat,
    lastResetDate: Option<string>,
    stripeCustomerId: Option<string>,
    stripeSubscriptionId: Option<string>)

  /** A row of `usage_logs`. */
  datatype LogEntry = LogEntry(userId: UserId, ticker: string, recommendation: Json, confidence: Json, elapsed: real)

  /** An HTTPException: its status code and detail. */
  datatype HttpError = HttpError(status: nat, detail: Json)

  /** A handler's outcome: its value, or the HTTPException it raised. */
  datatype Http<T> = Answer(value: T) | Rejected(error: HttpError)

  const ProfileNotFound: HttpError := HttpError(404, JStr("User profile not found"))

  /** The 429 raised when a free account has used its analyses for the day. */
  const LimitReached: HttpError :=
    HttpError(429, JObj(map["message" := JStr("Daily limit of 3 analyses reached"),
                            "tier" := JStr(FreeTier), "upgrade_required" := JBool(true)]))

  // ---------------------------------------------------------------------
  // The quota, on the table's value
  // ---------------------------------------------------------------------

  /** A profile as read on `today`: a stale count reads as 0. */
  function Fresh(p: Profile, today: string): Profile {
    if p.lastResetDate != Some(today) then p.(analysesToday := 0) else p
  }

  /** Whether the limit rejects a profile as read. */
  predicate OverLimit(p: Profile) {
    p.tier == FreeTier && p.analysesToday >= FreeTierDailyLimit
  }

  /** The table after `check_usage_limit`: a stale row is reset to 0 and
      dated today. */
  function UsageRows(rows: map<UserId, Profile>, id: UserId, today: string): map<UserId, Profile> {
    if id in rows && rows[id].lastResetDate != Some(today)
    then rows[id := rows[id].(analysesToday := 0, lastResetDate := Some(today))]
    else rows
  }

  /** What `check_usage_limit` returns: the profile it read, with the count
      it reset but the date it read, or the 404 or the 429. */
  function UsageCheck(rows: map<UserId, Profile>, id: UserId, today: string): Http<Profile> {
    if id !in rows then Rejected(ProfileNotFound)
    else if OverLimit(Fresh(rows[id], today)) then Rejected(LimitReached)
    else Answer(Fresh(rows[id], today))
  }

  /** The table after `increment_usage`. */
  function Incremented(rows: map<UserId, Profile>, id: UserId): map<UserId, Profile> {
    if id in rows then rows[id := rows[id].(analysesToday := rows[id].analysesToday + 1)] else rows
  }

  /** The table and the log, as one class. */
  class ProfileTable {
    var rows: map<UserId, Profile>
    var logs: seq<LogEntry>

    constructor (initial: map<UserId, Profile>)
      ensures rows == initial && logs == []
    {
      rows := initial;
      logs := [];
    }

    /** `get_user_profile`. */
    method GetUserProfile(id: UserId) returns (r: Http<Profile>)
      ensures id in rows ==> r == Answer(rows[id])
      ensures id !in rows ==> r == Rejected(ProfileNotFound)
    {
      if id !in rows {
        return Rejected(ProfileNotFound);
      }
      r := Answer(rows[id]);
    }

    /** `check_usage_limit`: read the profile, reset a stale count in the
        table and in the copy read, then apply the limit. */
    method CheckUsageLimit(id: UserId, today: string) returns (r: Http<Profile>)
      modifies this
      ensures rows == UsageRows(old(rows), id, today) && logs == old(logs)
      ensures r == UsageCheck(old(rows), id, today)
    {
      var found := GetUserProfile(id);
      if found.Rejected? {
        return found;
      }
      var profile := found.value;
      if profile.lastResetDate != Some(today) {
        rows := rows[id := rows[id].(analysesToday := 0, lastResetDate := Some(today))];
        profile := profile.(analysesToday := 0);
      }
      if profile.tier == FreeTier && profile.analysesToday >= FreeTierDailyLimit {
        return Rejected(LimitReached);
      }
      r := Answer(profile);
    }

    /** `increment_usage`: read the count, write it back plus one. */
    method IncrementUsage(id: UserId) returns (r: Option<HttpError>)
      modifies this
      ensures rows == Incremented(old(rows), id) && logs == old(logs)
      ensures r == if id in old(rows) then None else Some(ProfileNotFound)
    {
      var found := GetUserProfile(id);
      if found.Rejected? {
        return Some(found.error);
      }
      rows := rows[id := rows[id].(analysesToday := found.value.analysesToday + 1)];
      r := None;
    }

    /** `log_analysis`: one more row of `usage_logs`. */
    method LogAnalysis(entry: LogEntry)
      modifies this
      ensures logs == old(logs) + [entry] && rows == old(rows)
    {
      logs := logs + [entry];
    }
  }

  // ---------------------------------------------------------------------
  // Properties
  // ---------------------------------------------------------------------

  /** The limit rejects exactly a free account whose count for today has
      reached the limit; a missing profile is a 404. */
  lemma {:induction false} LimitRule(rows: map<UserId, Profile>, id: UserId, today: string)
    ensures id !in rows <==> UsageCheck(rows, id, today) == Rejected(ProfileNotFound)
    ensures id in rows ==>
      var todayCount := if rows[id].lastResetDate == Some(today) then rows[id].analysesToday else 0;
      && (UsageCheck(rows, id, today) == Rejected(LimitReached)
          <==> rows[id].tier == FreeTier && todayCount >= FreeTierDailyLimit)
      && (UsageCheck(rows, id, today).Answer? <==> !(rows[id].tier == FreeTier && todayCount >= FreeTierDailyLimit))
  {
  }

  /** Accounts on any other tier are never limited, and on a new day every
      account is admitted with its count reset. */
  lemma {:induction false} AdmittedCases(rows: map<UserId, Profile>, id: UserId, today: string)
    requires id in rows
    ensures rows[id].tier != FreeTier ==> UsageCheck(rows, id, today).Answer?
    ensures rows[id].lastResetDate != Some(today) ==>
      && UsageCheck(rows, id, today).Answer?
      && UsageCheck(rows, id, today).value.analysesToday == 0
      && UsageRows(rows, id, today)[id].analysesToday == 0
      && UsageRows(rows, id, today)[id].lastResetDate == Some(today)
  {
  }

  /** The check never raises a count and touches no other field and no other
      account; run again on the same day it changes nothing and gives the
      same verdict. The profile it returns keeps the date it read, so only
      a second check shows the new date. */
  lemma {:induction false} CheckNeverIncrements(rows: map<UserId, Profile>, id: UserId, today: string)
    ensures var after := UsageRows(rows, id, today);
      && after.Keys == rows.Keys
      && (forall u | u in rows :: after[u].analysesToday <= rows[u].analysesToday)
      && (forall u | u in rows :: after[u].tier == rows[u].tier
                                 && after[u].stripeCustomerId == rows[u].stripeCustomerId
                                 && after[u].stripeSubscriptionId == rows[u].stripeSubscriptionId)
      && (forall u | u in rows && u != id :: after[u] == rows[u])
      && UsageRows(after, id, today) == after
      && (UsageCheck(after, id, today).Answer? <==> UsageCheck(rows, id, today).Answer?)
      && (UsageCheck(rows, id, today).Answer? ==>
            UsageCheck(after, id, today).value == UsageCheck(rows, id, today).value.(lastResetDate := Some(today)))
  {
  }

  /** An increment adds exactly one to the account's count and changes
      nothing else. */
  lemma {:induction false} IncrementByOne(rows: map<UserId, Profile>, id: UserId)
    ensures var after := Incremented(rows, id);
      && after.Keys == rows.Keys
      && (id in rows ==> after[id] == rows[id].(analysesToday := rows[id].analysesToday + 1))
      && (forall u | u in rows && u != id :: after[u] == rows[u])
  {
  }

  /** `n` requests on one day, each admitted request followed by its
      increment: how many are admitted. */
  function Admitted(rows: map<UserId, Profile>, id: UserId, today: string, n: nat): nat
    decreases n
  {
    if n == 0 then 0
    else match UsageCheck(rows, id, today)
      case Rejected(_) => Admitted(UsageRows(rows, id, today), id, today, n - 1)
      case Answer(_) => 1 + Admitted(Incremented(UsageRows(rows, id, today), id), id, today, n - 1)
  }

  /** A free account gets exactly as many analyses in a day as its quota has
      left: the limit minus what it has used today, and no more however many
      requests it makes. Any other account is never refused. */
  lemma {:induction false} DailyQuota(rows: map<UserId, Profile>, id: UserId, today: string, n: nat)
    requires id in rows
    ensures var used := Fresh(rows[id], today).analysesToday;
      var left := if used >= FreeTierDailyLimit then 0 else FreeTierDailyLimit - used;
      && (rows[id].tier == FreeTier ==> Admitted(rows, id, today, n) == Min(n, left))
      && (rows[id].tier != FreeTier ==> Admitted(rows, id, today, n) == n)
    decreases n
  {
    if n > 0 {
      var reset := UsageRows(rows, id, today);
      assert reset[id] == Fresh(rows[id], today).(lastResetDate := Some(today));
      match UsageCheck(rows, id, today)
      case Rejected(_) =>
        DailyQuota(reset, id, today, n - 1);
      case Answer(_) =>
        var next := Incremented(reset, id);
        assert next[id].tier == rows[id].tier && next[id].lastResetDate == Some(today);
        assert next[id].analysesToday == Fresh(rows[id], today).analysesToday + 1;
        DailyQuota(next, id, today, n - 1);
    }
  }
}
