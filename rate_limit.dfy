/** The anonymous-user rate limiter of chatbot/utils/rate_limit.py: two
    counters per client address in the shared cache, "rl:<ip>:m" for the
    current minute and "rl:<ip>:d" for the current day, with the default
    limits of 3 and 20. The cache is a map from keys to counters; a
    counter's timeout running out is the explicit step `Expire`. */
module RateLimit {
  import opened Common

  const AnonLimitPerMinute: int := 3
  const AnonLimitPerDay: int := 20

  function MinuteKey(ip: string): string
  {
    "rl:" + ip + ":m"
  }

  function DayKey(ip: string): string
  {
    "rl:" + ip + ":d"
  }

  /** `cache.get(key, 0)`. */
  function Count(cache: map<string, int>, key: string): (r: int)
    ensures key !in cache ==> r == 0
    ensures key in cache ==> r == cache[key]
  {
    if key in cache then cache[key] else 0
  }

  function Max0(x: int): (r: int)
    ensures r >= 0 && r >= x && (r == 0 || r == x)
  {
    if x > 0 then x else 0
  }

  /** The dict `check_and_increment_anon` returns. */
  datatype Decision = Decision(allowed: bool, minuteLeft: int, dayLeft: int)

  /** `check_and_increment_anon(ip)` on the cache `cache`: the answer and
      the cache afterwards. */
  function Check(cache: map<string, int>, ip: string): (Decision, map<string, int>)
  {
    var m := Count(cache, MinuteKey(ip));
    if m >= AnonLimitPerMinute then (Decision(false, 0, 0), cache)
    else
      var c1 := cache[MinuteKey(ip) := m + 1];
      var d := Count(c1, DayKey(ip));
      if d >= AnonLimitPerDay then (Decision(false, AnonLimitPerMinute - (m + 1), 0), c1)
      else (Decision(true, Max0(AnonLimitPerMinute - (m + 1)), Max0(AnonLimitPerDay - (d + 1))),
            c1[DayKey(ip) := d + 1])
  }

  /** `get_client_ip(request)` on the request's META headers: the first
      entry of X-Forwarded-For, stripped, when that header is non-empty;
      otherwise REMOTE_ADDR, or "0.0.0.0" without it. */
  function ClientIp(meta: map<string, string>): string
  {
    if "HTTP_X_FORWARDED_FOR" in meta && meta["HTTP_X_FORWARDED_FOR"] != "" then
      Strip(SplitOn(meta["HTTP_X_FORWARDED_FOR"], ',')[0])
    else if "REMOTE_ADDR" in meta then meta["REMOTE_ADDR"]
    else "0.0.0.0"
  }

  /** No counter is negative or above its limit, for any address. */
  ghost predicate Bounded(cache: map<string, int>)
  {
    forall ip :: && 0 <= Count(cache, MinuteKey(ip)) <= AnonLimitPerMinute
                 && 0 <= Count(cache, DayKey(ip)) <= AnonLimitPerDay
  }

  class RateLimiter {
    var cache: map<string, int>

    constructor ()
      ensures cache == map[]
    {
      cache := map[];
    }

    /** `check_and_increment_anon(ip)`. */
    method CheckAndIncrementAnon(ip: string) returns (d: Decision)
      modifies this
      ensures (d, cache) == Check(old(cache), ip)
    {
      var mKey := MinuteKey(ip);
      var m := Count(cache, mKey);
      if m >= AnonLimitPerMinute {
        return Decision(false, 0, 0);
      }
      cache := cache[mKey := m + 1];
      var dKey := DayKey(ip);
      var day := Count(cache, dKey);
      if day >= AnonLimitPerDay {
        return Decision(false, AnonLimitPerMinute - (m + 1), 0);
      }
      cache := cache[dKey := day + 1];
      d := Decision(true, Max0(AnonLimitPerMinute - (m + 1)), Max0(AnonLimitPerDay - (day + 1)));
    }

    /** `get_daily_used_for_ip(ip)`. */
    function DailyUsedForIp(ip: string): (r: int)
      reads this
      ensures DayKey(ip) !in cache ==> r == 0
      ensures Bounded(cache) ==> 0 <= r <= AnonLimitPerDay
    {
      Count(cache, DayKey(ip))
    }

    /** The cache dropping a counter whose timeout ran out. */
    method Expire(key: string)
      modifies this
      ensures cache == old(cache) - {key}
    {
      cache := cache - {key};
    }
  }

  /** The two counter keys of an address never coincide with each other,
      nor with those of another address. */
  lemma KeysDistinct(a: string, b: string)
    ensures MinuteKey(a) != DayKey(b)
    ensures MinuteKey(a) == MinuteKey(b) ==> a == b
    ensures DayKey(a) == DayKey(b) ==> a == b
  {
    assert MinuteKey(a)[|MinuteKey(a)| - 1] == 'm';
    assert DayKey(b)[|DayKey(b)| - 1] == 'd';
    assert MinuteKey(a)[3..|MinuteKey(a)| - 2] == a;
    assert MinuteKey(b)[3..|MinuteKey(b)| - 2] == b;
    assert DayKey(a)[3..|DayKey(a)| - 2] == a;
    assert DayKey(b)[3..|DayKey(b)| - 2] == b;
  }

  /** A request is allowed exactly when both of its address's counters are
      below their limits. */
  lemma AllowedIff(cache: map<string, int>, ip: string)
    ensures Check(cache, ip).0.allowed <==>
      Count(cache, MinuteKey(ip)) < AnonLimitPerMinute && Count(cache, DayKey(ip)) < AnonLimitPerDay
  {
    KeysDistinct(ip, ip);
  }

  /** At the minute limit the request is refused, nothing is counted, and
      both remaining counts are 0. */
  lemma MinuteLimitRefuses(cache: map<string, int>, ip: string)
    requires Count(cache, MinuteKey(ip)) >= AnonLimitPerMinute
    ensures Check(cache, ip) == (Decision(false, 0, 0), cache)
  {
  }

  /** Below the minute limit but at the daily one, the request is refused
      after its minute slot is spent: the minute counter goes up by one,
      the day counter stays. */
  lemma DailyLimitSpendsMinute(cache: map<string, int>, ip: string)
    requires Count(cache, MinuteKey(ip)) < AnonLimitPerMinute
    requires Count(cache, DayKey(ip)) >= AnonLimitPerDay
    ensures var (d, after) := Check(cache, ip);
      && !d.allowed && d.dayLeft == 0
      && d.minuteLeft == AnonLimitPerMinute - Count(after, MinuteKey(ip)) >= 0
      && after == cache[MinuteKey(ip) := Count(cache, MinuteKey(ip)) + 1]
      && Count(after, DayKey(ip)) == Count(cache, DayKey(ip))
  {
    KeysDistinct(ip, ip);
  }

  /** An allowed request raises both of its counters by exactly one, touches
      no other key, and reports what is left of each limit. */
  lemma AllowedCountsOnce(cache: map<string, int>, ip: string)
    requires Check(cache, ip).0.allowed
    ensures var (d, after) := Check(cache, ip);
      && Count(after, MinuteKey(ip)) == Count(cache, MinuteKey(ip)) + 1
      && Count(after, DayKey(ip)) == Count(cache, DayKey(ip)) + 1
      && (forall k :: k != MinuteKey(ip) && k != DayKey(ip) ==> Count(after, k) == Count(cache, k))
      && d.minuteLeft == Max0(AnonLimitPerMinute - Count(after, MinuteKey(ip)))
      && d.dayLeft == Max0(AnonLimitPerDay - Count(after, DayKey(ip)))
  {
    KeysDistinct(ip, ip);
  }

  /** Requests from one address leave every other address's counters as
      they were. */
  lemma OtherAddressesUntouched(cache: map<string, int>, ip: string, other: string)
    requires other != ip
    ensures Count(Check(cache, ip).1, MinuteKey(other)) == Count(cache, MinuteKey(other))
    ensures Count(Check(cache, ip).1, DayKey(other)) == Count(cache, DayKey(other))
  {
    KeysDistinct(ip, other);
    KeysDistinct(other, ip);
  }

  /** No counter is pushed past its limit by `check_and_increment_anon`,
      and expiry only resets counters. */
  lemma CheckKeepsBounds(cache: map<string, int>, ip: string, key: string)
    requires Bounded(cache)
    ensures Bounded(Check(cache, ip).1)
    ensures Bounded(cache - {key})
  {
    var after := Check(cache, ip).1;
    forall a
      ensures && 0 <= Count(after, MinuteKey(a)) <= AnonLimitPerMinute
              && 0 <= Count(after, DayKey(a)) <= AnonLimitPerDay
    {
      if a == ip {
        KeysDistinct(ip, ip);
      } else {
        OtherAddressesUntouched(cache, ip, a);
      }
    }
    forall a
      ensures && 0 <= Count(cache - {key}, MinuteKey(a)) <= AnonLimitPerMinute
              && 0 <= Count(cache - {key}, DayKey(a)) <= AnonLimitPerDay
    {
    }
  }

  /** Within one minute a fresh address gets three requests and the fourth
      is refused, as long as the day has room for three. */
  lemma ThreePerMinute(cache: map<string, int>, ip: string)
    requires Count(cache, MinuteKey(ip)) == 0
    requires 0 <= Count(cache, DayKey(ip)) <= AnonLimitPerDay - 3
    ensures var r1 := Check(cache, ip);
      var r2 := Check(r1.1, ip);
      var r3 := Check(r2.1, ip);
      var r4 := Check(r3.1, ip);
      && r1.0.allowed && r2.0.allowed && r3.0.allowed && !r4.0.allowed
      && r3.0.minuteLeft == 0 && r4.1 == r3.1
  {
    var r1 := Check(cache, ip);
    AllowedIff(cache, ip);
    AllowedCountsOnce(cache, ip);
    var r2 := Check(r1.1, ip);
    AllowedIff(r1.1, ip);
    AllowedCountsOnce(r1.1, ip);
    var r3 := Check(r2.1, ip);
    AllowedIff(r2.1, ip);
    AllowedCountsOnce(r2.1, ip);
    MinuteLimitRefuses(r3.1, ip);
  }

  /** With a non-empty X-Forwarded-For header the address is its first
      comma-separated entry, stripped, and holds no comma. */
  lemma ClientIpFirstHop(meta: map<string, string>, first: string, rest: string)
    requires ',' !in first
    requires "HTTP_X_FORWARDED_FOR" in meta && meta["HTTP_X_FORWARDED_FOR"] == first + "," + rest
    ensures ClientIp(meta) == Strip(first) && ',' !in ClientIp(meta)
  {
    SplitOnField(first, ',', rest);
    StripSubstring(first, IsSpace);
  }

  /** A single-entry header gives that entry, stripped. */
  lemma ClientIpSingleHop(meta: map<string, string>)
    requires "HTTP_X_FORWARDED_FOR" in meta && meta["HTTP_X_FORWARDED_FOR"] != ""
    requires ',' !in meta["HTTP_X_FORWARDED_FOR"]
    ensures ClientIp(meta) == Strip(meta["HTTP_X_FORWARDED_FOR"])
  {
    SplitOnNone(meta["HTTP_X_FORWARDED_FOR"], ',');
  }

  /** Without that header the peer address is used as given, and
      "0.0.0.0" stands in when there is none. */
  lemma ClientIpNoProxy(meta: map<string, string>)
    requires "HTTP_X_FORWARDED_FOR" !in meta || meta["HTTP_X_FORWARDED_FOR"] == ""
    ensures "REMOTE_ADDR" in meta ==> ClientIp(meta) == meta["REMOTE_ADDR"]
    ensures "REMOTE_ADDR" !in meta ==> ClientIp(meta) == "0.0.0.0"
  {
  }
}
