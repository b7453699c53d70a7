/** The progress trackers of chatbot/services/progress.py: one record per
    tracker key in the shared cache, stored under "chatbot:progress:" + key
    and kept for 600 seconds after each write. The cache is a map from
    cache keys to entries holding the record and the seconds it has left;
    the passing of time is the explicit step `Elapse`. The tracker key is
    the uuid4 the caller draws, passed in. */
module Progress {
  import opened Common

  const CachePrefix := "chatbot:progress:"
  const TtlSeconds: nat := 600

  /** The states a tracker reports. */
  datatype State =
    | Queued | GatheringContext | CallingLlm | StreamingAnswer | Done | Error
    | ObteniendoDemanda | NoPjudInfoAvailableYet

  function StateName(s: State): string
  {
    match s
    case Queued => "queued"
    case GatheringContext => "gathering_context"
    case CallingLlm => "calling_llm"
    case StreamingAnswer => "streaming_answer"
    case Done => "done"
    case Error => "error"
    case ObteniendoDemanda => "obteniendo_demanda"
    case NoPjudInfoAvailableYet => "no_pjud_info_available_yet"
  }

  /** A progress record: the JSON object the cache holds. */
  type Record = map<string, Json>

  /** A cached value and the seconds until the cache drops it. */
  datatype Entry = Entry(data: Record, ttl: nat)

  /** What `get_state` answers for a key the cache does not hold. */
  const UnknownKey: Record := map["state" := JStr("error"), "detail" := JStr("unknown key")]

  /** `{"state": state}` updated with `extra` when `extra` is given and
      non-empty: the keys of `extra` override, "state" included. */
  function StateRecord(state: State, extra: Option<Record>): (r: Record)
    ensures r.Keys == {"state"} + (if extra.Some? then extra.value.Keys else {})
    ensures extra.Some? ==> forall k :: k in extra.value ==> r[k] == extra.value[k]
    ensures extra.None? || "state" !in extra.value ==> r["state"] == JStr(StateName(state))
  {
    var data := map["state" := JStr(StateName(state))];
    if extra.Some? && extra.value != map[] then data + extra.value else data
  }

  /** `cache.set(CACHE_PREFIX + key, data, TTL_SECONDS)`. */
  function Put(cache: map<string, Entry>, key: string, data: Record): map<string, Entry>
  {
    cache[CachePrefix + key := Entry(data, TtlSeconds)]
  }

  /** `cache.get(CACHE_PREFIX + key, {"state": "error", "detail": "unknown key"})`. */
  function Lookup(cache: map<string, Entry>, key: string): (r: Record)
    ensures CachePrefix + key in cache ==> r == cache[CachePrefix + key].data
    ensures CachePrefix + key !in cache ==> r == UnknownKey
  {
    if CachePrefix + key in cache then cache[CachePrefix + key].data else UnknownKey
  }

  /** The cache after `seconds` more seconds: entries whose time is up are
      gone, the others have that much less left. */
  function Aged(cache: map<string, Entry>, seconds: nat): (r: map<string, Entry>)
    ensures forall k :: k in r <==> k in cache && cache[k].ttl > seconds
    ensures forall k :: k in r ==> r[k] == Entry(cache[k].data, cache[k].ttl - seconds)
  {
    map k | k in cache && cache[k].ttl > seconds :: Entry(cache[k].data, cache[k].ttl - seconds)
  }

  /** Every record in the cache reports a state. */
  ghost predicate AllReportState(cache: map<string, Entry>)
  {
    forall k :: k in cache ==> "state" in cache[k].data
  }

  class ProgressCache {
    var entries: map<string, Entry>

    constructor ()
      ensures entries == map[]
    {
      entries := map[];
    }

    /** `new_progress()`, with `key` the uuid4 drawn for it. */
    method NewProgress(key: string) returns (k: string)
      modifies this
      ensures k == key
      ensures entries == Put(old(entries), key, map["state" := JStr("queued")])
    {
      entries := Put(entries, key, map["state" := JStr(StateName(Queued))]);
      k := key;
    }

    /** `set_state(key, state, extra)`. */
    method SetState(key: string, state: State, extra: Option<Record>)
      modifies this
      ensures entries == Put(old(entries), key, StateRecord(state, extra))
    {
      var data := map["state" := JStr(StateName(state))];
      if extra.Some? && extra.value != map[] {
        data := data + extra.value;
      }
      entries := Put(entries, key, data);
    }

    /** `get_state(key)`. */
    function GetState(key: string): (r: Record)
      reads this
      ensures AllReportState(entries) ==> "state" in r
      ensures CachePrefix + key !in entries ==> r == UnknownKey
    {
      Lookup(entries, key)
    }

    /** Time passing: `seconds` more seconds of every entry's lifetime. */
    method Elapse(seconds: nat)
      modifies this
      ensures entries == Aged(old(entries), seconds)
    {
      entries := Aged(entries, seconds);
    }
  }

  /** The state names are pairwise different. */
  lemma StateNameInjective(s: State, t: State)
    requires StateName(s) == StateName(t)
    ensures s == t
  {
  }

  /** Writing a record, then letting less than the 600 seconds pass, reads
      that record back. */
  lemma ReadYourWrite(cache: map<string, Entry>, key: string, data: Record, seconds: nat)
    requires seconds < TtlSeconds
    ensures Lookup(Aged(Put(cache, key, data), seconds), key) == data
  {
    var c := Put(cache, key, data);
    assert CachePrefix + key in Aged(c, seconds);
  }

  /** Once 600 seconds pass without a write, the tracker reads as unknown. */
  lemma WriteExpires(cache: map<string, Entry>, key: string, data: Record, seconds: nat)
    requires seconds >= TtlSeconds
    ensures Lookup(Aged(Put(cache, key, data), seconds), key) == UnknownKey
  {
    var c := Put(cache, key, data);
    assert CachePrefix + key !in Aged(c, seconds);
  }

  /** A write to one tracker leaves every other tracker as it was. */
  lemma PutOthersUnchanged(cache: map<string, Entry>, key: string, other: string, data: Record)
    requires other != key
    ensures Lookup(Put(cache, key, data), other) == Lookup(cache, other)
  {
    assert (CachePrefix + key)[|CachePrefix|..] == key;
    assert (CachePrefix + other)[|CachePrefix|..] == other;
  }

  /** The last write to a tracker wins: a second write replaces the whole
      record, including keys only the first one had. */
  lemma LastWriteWins(cache: map<string, Entry>, key: string, d1: Record, d2: Record)
    ensures Put(Put(cache, key, d1), key, d2) == Put(cache, key, d2)
  {
  }

  /** A new tracker reads as queued until it is written again or expires. */
  lemma NewProgressQueued(cache: map<string, Entry>, key: string, seconds: nat)
    requires seconds < TtlSeconds
    ensures Lookup(Aged(Put(cache, key, map["state" := JStr("queued")]), seconds), key)["state"] == JStr("queued")
  {
    ReadYourWrite(cache, key, map["state" := JStr("queued")], seconds);
  }

  /** `set_state` with a state and no `extra` keys overriding it reads back
      that state. */
  lemma SetStateReadsBack(cache: map<string, Entry>, key: string, state: State, extra: Option<Record>)
    requires extra.None? || "state" !in extra.value
    ensures Lookup(Put(cache, key, StateRecord(state, extra)), key)["state"] == JStr(StateName(state))
  {
  }

  /** Writes that all report a state keep every record reporting one, and
      so does the passing of time. */
  lemma ReportStatePreserved(cache: map<string, Entry>, key: string, state: State, extra: Option<Record>, seconds: nat)
    requires AllReportState(cache)
    ensures AllReportState(Put(cache, key, StateRecord(state, extra)))
    ensures AllReportState(Put(cache, key, map["state" := JStr("queued")]))
    ensures AllReportState(Aged(cache, seconds))
  {
  }
}
