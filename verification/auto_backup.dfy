/**
 * createAutoBackup of background.js: a snapshot of the stored prompts is put
 * at the front of the `backups` array, which keeps at most three snapshots,
 * newest first; no snapshot is taken when there are no prompts or when the
 * newest one is less than an hour old. The extension's install and startup
 * events decide when it runs.
 */
module AutoBackup {
  import opened Results
  import opened JsonValues
  import opened KeyValueStore
  import opened Sequences
  import opened PromptRecords

  /** The store key of the snapshot array (background.js:3). */
  const BackupsKey: string := "backups"
  /** One hour in milliseconds: the least age of the newest snapshot before another is taken. */
  const RateLimitMs: int := 3600000
  /** The number of snapshots kept. */
  const MaxBackups: nat := 3

  /** A snapshot as background.js:15-22 builds it. */
  datatype Backup = Backup(id: string, timestamp: int, date: string, reason: string, promptCount: nat, prompts: seq<Json>)

  function BackupJson(b: Backup): Json {
    Obj(map[
      "id" := Str(b.id), "timestamp" := Num(b.timestamp), "date" := Str(b.date),
      "reason" := Str(b.reason), "promptCount" := Num(b.promptCount), "prompts" := Arr(b.prompts)])
  }

  /**
   * The number `now - v` subtracts, when it is one: undefined and objects give
   * NaN (None), null and booleans give 0 or 1.
   */
  function ToNumber(v: Json): Option<int> {
    match v
    case Null => Some(0)
    case Bool(b) => Some(if b then 1 else 0)
    case Num(n) => Some(n)
    case _ => None
  }

  /**
   * `backups.unshift(backup)` followed by `while (backups.length > 3) backups.pop()`:
   * the new snapshot in front of the newest earlier ones.
   */
  function Ring(b: Json, earlier: seq<Json>): (r: seq<Json>)
    ensures |r| == Min(|earlier| + 1, MaxBackups)
  {
    ([b] + earlier)[..Min(|earlier| + 1, MaxBackups)]
  }

  /** The ring keeps at most three snapshots, the new one first, then earlier ones in their order, oldest dropped first. */
  lemma RingShape(b: Json, earlier: seq<Json>)
    ensures 1 <= |Ring(b, earlier)| <= MaxBackups
    ensures Ring(b, earlier)[0] == b
    ensures Ring(b, earlier)[1..] == earlier[..|Ring(b, earlier)| - 1]
    ensures IsSubsequence(Ring(b, earlier)[1..], earlier)
    ensures |earlier| < MaxBackups ==> Ring(b, earlier) == [b] + earlier
  {
    var r := Ring(b, earlier);
    assert r[1..] == earlier[..|r| - 1];
    PrefixIsSubsequence(earlier, |r| - 1);
  }

  /**
   * What createAutoBackup writes under `backups`, given the stored `prompts`
   * and `backups` values, or None when it returns early or a TypeError is
   * swallowed. `now`, `id` and `date` stand for Date.now(), the generated id
   * and the ISO date.
   */
  function PlannedRing(stored: Json, backups: Json, reason: string, now: int, id: string, date: string): Option<seq<Json>> {
    var prompts := if stored.Arr? then stored.items else [];
    if |prompts| == 0 then None
    else
      if !Truthy(backups) then
        Some(Ring(BackupJson(Backup(id, now, date, reason, |prompts|, prompts)), []))
      else if !backups.Arr? then None
      else if |backups.items| > 0 && Nullish(backups.items[0]) then None
      else if |backups.items| > 0 && RateLimited(backups.items[0], now) then None
      else Some(Ring(BackupJson(Backup(id, now, date, reason, |prompts|, prompts)), backups.items))
  }

  /** `Date.now() - backups[0].timestamp < 3600000`; NaN compares false. */
  predicate RateLimited(newest: Json, now: int)
    requires !Nullish(newest)
  {
    var t := ToNumber(Prop(newest, "timestamp").value);
    t.Some? && now - t.value < RateLimitMs
  }

  /** The store after createAutoBackup. */
  function BackupOutcome(items: map<string, Json>, reachable: bool, reason: string, now: int, id: string, date: string)
    : map<string, Json>
  {
    if !reachable then items
    else
      match PlannedRing(Lookup(items, PromptsKey), Lookup(items, BackupsKey), reason, now, id, date)
      case None => items
      case Some(ring) => items[BackupsKey := Arr(ring)]
  }

  /**
   * createAutoBackup (background.js:1-31). It never throws: a rejected `get`
   * or `set` and a TypeError on a malformed `backups` value all end it
   * without a write.
   */
  method CreateAutoBackup(area: StorageArea, reason: string, now: int, id: string, date: string)
    modifies area
    ensures area.reachable == old(area.reachable)
    ensures area.items == BackupOutcome(old(area.items), old(area.reachable), reason, now, id, date)
  {
    var got := area.Get(KeyList([PromptsKey, BackupsKey]));
    if got.None? {
      return;
    }
    var result := got.value;
    assert [PromptsKey, BackupsKey][0] == PromptsKey && [PromptsKey, BackupsKey][1] == BackupsKey;
    var stored := Lookup(result, PromptsKey);
    var prompts := if stored.Arr? then stored.items else [];
    if |prompts| == 0 {
      return;
    }
    var found := Lookup(result, BackupsKey);
    var backups: seq<Json>;
    if !Truthy(found) {
      backups := [];
    } else if !found.Arr? {
      return;
    } else {
      backups := found.items;
    }
    if |backups| > 0 {
      if Nullish(backups[0]) {
        return;
      }
      var lastTimestamp := Prop(backups[0], "timestamp").value;
      var t := ToNumber(lastTimestamp);
      if t.Some? && now - t.value < RateLimitMs {
        return;
      }
    }
    var backup := BackupJson(Backup(id, now, date, reason, |prompts|, prompts));
    var ring := DropOldest([backup] + backups);
    var _ := area.Set(map[BackupsKey := Arr(ring)]);
    assert area.items == old(area.items)[BackupsKey := Arr(ring)];
  }

  /** `while (backups.length > 3) backups.pop()`: the newest three, in order. */
  method DropOldest(backups: seq<Json>) returns (ring: seq<Json>)
    ensures ring == backups[..Min(|backups|, MaxBackups)]
  {
    ring := backups;
    while |ring| > MaxBackups
      invariant ring == backups[..|ring|]
      invariant |ring| >= Min(|backups|, MaxBackups)
      decreases |ring|
    {
      ring := ring[..|ring| - 1];
    }
  }

  // ---------------------------------------------------------------- what a run guarantees

  /** With no stored prompts array, or an empty one, nothing is written. */
  lemma NoPromptsNoBackup(items: map<string, Json>, reachable: bool, reason: string, now: int, id: string, date: string)
    requires !Lookup(items, PromptsKey).Arr? || Lookup(items, PromptsKey).items == []
    ensures BackupOutcome(items, reachable, reason, now, id, date) == items
  {
  }

  /**
   * When the newest snapshot is less than an hour old nothing is written,
   * whatever the reason.
   */
  lemma RateLimitForEveryReason(items: map<string, Json>, reachable: bool, reason: string, now: int, id: string, date: string, t: int)
    requires BackupsKey in items && items[BackupsKey].Arr? && |items[BackupsKey].items| > 0
    requires items[BackupsKey].items[0].Obj? && Field(items[BackupsKey].items[0], "timestamp") == Num(t)
    requires now - t < RateLimitMs
    ensures BackupOutcome(items, reachable, reason, now, id, date) == items
  {
  }

  /**
   * A write stores the new snapshot first, with the reason, the count and the
   * prompts it was taken of, followed by the newest earlier snapshots in their
   * order, three at most.
   */
  lemma BackupWritten(items: map<string, Json>, reason: string, now: int, id: string, date: string)
    requires BackupOutcome(items, true, reason, now, id, date) != items
    ensures PromptsKey in items && items[PromptsKey].Arr? && items[PromptsKey].items != []
    ensures var prompts := items[PromptsKey].items;
            var earlier := if BackupsKey in items && items[BackupsKey].Arr? then items[BackupsKey].items else [];
            var ring := Lookup(BackupOutcome(items, true, reason, now, id, date), BackupsKey);
            && ring.Arr? && 1 <= |ring.items| <= MaxBackups
            && ring.items[0] == BackupJson(Backup(id, now, date, reason, |prompts|, prompts))
            && ring.items[1..] == earlier[..|ring.items| - 1]
    ensures forall k :: k != BackupsKey ==> Lookup(BackupOutcome(items, true, reason, now, id, date), k) == Lookup(items, k)
  {
    var stored := Lookup(items, PromptsKey);
    var prompts := if stored.Arr? then stored.items else [];
    var b := BackupJson(Backup(id, now, date, reason, |prompts|, prompts));
    var found := Lookup(items, BackupsKey);
    if found.Arr? && Truthy(found) {
      RingShape(b, found.items);
    } else {
      RingShape(b, []);
    }
  }

  /**
   * The converse of BackupWritten: when there are prompts and the `backups`
   * value is falsy, or an array that is empty or whose newest snapshot is
   * readable and at least an hour old (or has no numeric timestamp), the new
   * ring is written.
   */
  lemma BackupTaken(items: map<string, Json>, reason: string, now: int, id: string, date: string)
    requires Lookup(items, PromptsKey).Arr? && Lookup(items, PromptsKey).items != []
    requires var found := Lookup(items, BackupsKey);
             || !Truthy(found)
             || (found.Arr? && (found.items == [] || (!Nullish(found.items[0]) && !RateLimited(found.items[0], now))))
    ensures var prompts := Lookup(items, PromptsKey).items;
            var found := Lookup(items, BackupsKey);
            var earlier := if Truthy(found) then found.items else [];
            BackupOutcome(items, true, reason, now, id, date)
            == items[BackupsKey := Arr(Ring(BackupJson(Backup(id, now, date, reason, |prompts|, prompts)), earlier))]
  {
  }

  // ---------------------------------------------------------------- the listeners

  /**
   * runtime.onInstalled (background.js:33-37): an update takes a backup with
   * reason 'update'; any other install reason leaves the store as it is.
   */
  method OnInstalled(area: StorageArea, detailsReason: string, now: int, id: string, date: string)
    modifies area
    ensures area.reachable == old(area.reachable)
    ensures area.items == if detailsReason == "update"
                          then BackupOutcome(old(area.items), old(area.reachable), "update", now, id, date)
                          else old(area.items)
  {
    if detailsReason == "update" {
      CreateAutoBackup(area, "update", now, id, date);
    }
  }

  /** runtime.onStartup (background.js:39-41): every start takes a backup with reason 'startup'. */
  method OnStartup(area: StorageArea, now: int, id: string, date: string)
    modifies area
    ensures area.reachable == old(area.reachable)
    ensures area.items == BackupOutcome(old(area.items), old(area.reachable), "startup", now, id, date)
  {
    CreateAutoBackup(area, "startup", now, id, date);
  }
}
