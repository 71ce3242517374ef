/** The weekly free-tier quota shared by the two edge functions: the week key,
    the usage counters keyed by (user, week start), the gate that rejects a
    non-premium user at 3 uses, and the increment that follows a success. */
module Quota {
  import opened Wrappers

  /** `FREE_LIMIT`: uses per action type per week for a non-premium user */
  const FreeLimit: nat := 3

  // ---------------------------------------------------------------------------
  // Week start

  /** `Date.getDay()` on day numbers where day 0 is Thursday 1 January 1970:
      0 is Sunday, 1 Monday, ..., 6 Saturday. */
  function Weekday(day: int): (w: int)
    ensures 0 <= w < 7
  {
    (day + 4) % 7
  }

  /** `setDate(getDate() - getDay() + 1)` */
  function WeekStart(day: int): (ws: int)
    ensures Weekday(ws) == 1
    ensures Weekday(day) != 0 ==> ws <= day < ws + 6
    ensures Weekday(day) == 0 ==> ws == day + 1
  {
    day - Weekday(day) + 1
  }

  /** A key covers the seven days from the Sunday before its Monday to the
      Saturday after: a Sunday is counted with the week that follows it. */
  lemma WeekStartWindow(day: int, monday: int)
    requires Weekday(monday) == 1
    ensures WeekStart(day) == monday <==> monday - 1 <= day <= monday + 5
  {
  }

  /** The Monday on or before a day, the week start the ISO calendar uses */
  function IsoWeekStart(day: int): (ws: int)
    ensures Weekday(ws) == 1
    ensures ws <= day < ws + 7
  {
    day - (Weekday(day) + 6) % 7
  }

  /** The computed key agrees with the ISO Monday except on Sundays, where it
      is one week later. */
  lemma WeekStartVersusIso(day: int)
    ensures Weekday(day) != 0 ==> WeekStart(day) == IsoWeekStart(day)
    ensures Weekday(day) == 0 ==> WeekStart(day) == IsoWeekStart(day) + 7
  {
  }

  // ---------------------------------------------------------------------------
  // Usage counters

  datatype Action = Rating | Generation

  /** A row of `usage_counters` */
  datatype Counter = Counter(ratingsUsed: nat, generationsUsed: nat)

  datatype Key = Key(user: string, weekStart: int)

  /** The `usage_counters` table */
  type Usage = map<Key, Counter>

  function Used(c: Counter, a: Action): nat {
    match a
    case Rating => c.ratingsUsed
    case Generation => c.generationsUsed
  }

  /** The row for a key; an absent row reads as zero uses. */
  function Row(u: Usage, k: Key): (c: Counter)
    ensures k !in u ==> c == Counter(0, 0)
  {
    if k in u then u[k] else Counter(0, 0)
  }

  /** `increment_usage_counter(user, type)`: one more use of `a` in the row of
      `k`, creating the row if needed; nothing else changes. */
  function Increment(u: Usage, k: Key, a: Action): (u': Usage)
    ensures u'.Keys == u.Keys + {k}
    ensures Used(u'[k], a) == Used(Row(u, k), a) + 1
    ensures forall b :: b != a ==> Used(u'[k], b) == Used(Row(u, k), b)
    ensures forall k' :: k' in u && k' != k ==> u'[k'] == u[k']
  {
    var c := Row(u, k);
    u[k := match a
      case Rating => c.(ratingsUsed := c.ratingsUsed + 1)
      case Generation => c.(generationsUsed := c.generationsUsed + 1)]
  }

  // ---------------------------------------------------------------------------
  // The gate

  /** Who is asking and what the database answers along the way */
  datatype Env = Env(
    authUser: Option<string>,     // `auth.getUser()`; None when it fails
    profilePremium: Option<bool>, // `profile?.is_premium`; None when no profile
    today: int,                   // the server's current day number
    counterReadFails: bool,       // the counter select returned no data
    incrementFails: bool)         // `increment_usage_counter` answered with an error, which is not read

  /** `profile?.is_premium || false` */
  predicate IsPremium(env: Env) {
    env.profilePremium == Some(true)
  }

  /** `usage?.<counter> || 0`: a missing row or a failed read counts as 0. */
  function UsedSoFar(u: Usage, k: Key, a: Action, readFails: bool): (n: nat)
    ensures readFails || k !in u ==> n == 0
    ensures !readFails ==> n == Used(Row(u, k), a)
  {
    if readFails then 0 else Used(Row(u, k), a)
  }

  datatype Fault = Unauthorized | WardrobeMissing

  /** What an edge function answers */
  datatype Response<T> =
    | Success(body: T)
    | QuotaExceeded(error: string, message: string)
    | BadRequest(fault: Fault)

  /** The HTTP status of a response */
  function Status<T>(r: Response<T>): (s: int)
    ensures r.Success? <==> s == 200
    ensures r.QuotaExceeded? <==> s == 402
    ensures r.BadRequest? <==> s == 400
  {
    match r
    case Success(_) => 200
    case QuotaExceeded(_, _) => 402
    case BadRequest(_) => 400
  }

  /** The 402 body both functions send */
  function QuotaResponse<T>(): Response<T> {
    QuotaExceeded("Quota exceeded", "Tu as atteint la limite hebdomadaire. Passe à Premium !")
  }

  /** The counter row a request of `user` reads and bumps */
  function KeyFor(user: string, env: Env): Key {
    Key(user, WeekStart(env.today))
  }

  /** The quota check: true when a non-premium user has no use left. */
  predicate OverQuota(env: Env, u: Usage, user: string, a: Action) {
    !IsPremium(env) && UsedSoFar(u, KeyFor(user, env), a, env.counterReadFails) >= FreeLimit
  }

  /** After a successful action: bump the counter of a non-premium user only.
      The call's `{ error }` is never looked at, so a failed increment leaves
      the counters as they were and the request still succeeds. */
  function Charge(env: Env, u: Usage, user: string, a: Action): (u': Usage)
    ensures IsPremium(env) || env.incrementFails ==> u' == u
    ensures !IsPremium(env) && !env.incrementFails ==> u' == Increment(u, KeyFor(user, env), a)
  {
    if IsPremium(env) || env.incrementFails then u else Increment(u, KeyFor(user, env), a)
  }

  /** The increment procedure is given the user and the counter type but no
      week. `Charge` takes it that it bumps the row the gate reads. A procedure keyed
      by the ISO Monday would hit that row on every day but Sunday. On a
      Sunday it would bump a row the gate never reads, so Sunday uses would
      never count against the limit. */
  lemma IsoKeyedIncrement(u: Usage, user: string, env: Env, a: Action)
    ensures Weekday(env.today) != 0 ==>
              Increment(u, Key(user, IsoWeekStart(env.today)), a) == Increment(u, KeyFor(user, env), a)
    ensures Weekday(env.today) == 0 ==>
              Row(Increment(u, Key(user, IsoWeekStart(env.today)), a), KeyFor(user, env)) == Row(u, KeyFor(user, env))
  {
    WeekStartVersusIso(env.today);
  }
}
