/**
 * The system status store (stores/system.ts): database counts, the two API probe badges,
 * the derived data and health indicators, and the notification list. The probes and the
 * auto-removal timer are not modelled; a notification's id is a parameter.
 */
module System {
  import W = Wrappers
  import opened Seqs

  datatype Color = SuccessColor | ErrorColor | WarningColor | InfoColor
  datatype Variant = Solid | Soft

  datatype ApiStatus = ApiStatus(status: string, color: Color, variant: Variant)

  datatype DatabaseStats = DatabaseStats(visualBlocks: int, regions: int, annotations: int, regionBlocks: int)

  datatype Health = Healthy | Warning | Error

  datatype StatusBadge = StatusBadge(text: string, color: Color)

  datatype Notification = Notification(
    id: string,
    kind: Color,
    title: string,
    description: W.Option<string>,
    timeout: W.Option<int>)

  const InitialBlocksStatus := ApiStatus("检测中...", WarningColor, Soft)
  const InitialInitDbStatus := ApiStatus("未测试", InfoColor, Soft)
  const LoadingText := "加载中..."
  const DoneText := "已完成"
  const UninitialisedText := "未初始化"

  /** `dataStatus`: loading before any counts, done once a visual block exists, uninitialised otherwise. */
  function DataStatusOf(stats: W.Option<DatabaseStats>): (r: StatusBadge)
    ensures stats.None? <==> r == StatusBadge(LoadingText, WarningColor)
    ensures r == StatusBadge(DoneText, SuccessColor) <==> stats.Some? && stats.value.visualBlocks > 0
    ensures r == StatusBadge(UninitialisedText, ErrorColor) <==> stats.Some? && stats.value.visualBlocks <= 0
  {
    if stats.None? then StatusBadge(LoadingText, WarningColor)
    else if stats.value.visualBlocks > 0 then StatusBadge(DoneText, SuccessColor)
    else StatusBadge(UninitialisedText, ErrorColor)
  }

  /** `systemHealth`: healthy when both probes succeeded, a warning when exactly one did. */
  function HealthOf(blocks: ApiStatus, initDb: ApiStatus): (r: Health)
    ensures r == Healthy <==> blocks.color == SuccessColor && initDb.color == SuccessColor
    ensures r == Warning <==> (blocks.color == SuccessColor) != (initDb.color == SuccessColor)
    ensures r == Error <==> blocks.color != SuccessColor && initDb.color != SuccessColor
  {
    var blocksOk := blocks.color == SuccessColor;
    var dbOk := initDb.color == SuccessColor;
    if blocksOk && dbOk then Healthy
    else if blocksOk || dbOk then Warning
    else Error
  }

  /** The entry `addNotification` pushes: the new id followed by the supplied fields. */
  function WithId(id: string, kind: Color, title: string, description: W.Option<string>, timeout: W.Option<int>): Notification
  {
    Notification(id, kind, title, description, timeout)
  }

  function HasId(id: string): Notification -> bool
  {
    (n: Notification) => n.id == id
  }

  class SystemStore {
    var stats: W.Option<DatabaseStats>
    var blocksStatus: ApiStatus
    var initDbStatus: ApiStatus
    var isLoading: bool
    var error: W.Option<string>
    var notifications: seq<Notification>

    predicate Initial()
      reads this
    {
      && stats == W.None && blocksStatus == InitialBlocksStatus && initDbStatus == InitialInitDbStatus
      && !isLoading && error == W.None && notifications == []
    }

    constructor()
      ensures Initial()
    {
      stats := W.None;
      blocksStatus := InitialBlocksStatus;
      initDbStatus := InitialInitDbStatus;
      isLoading := false;
      error := W.None;
      notifications := [];
    }

    /** `dataStatus`, read from the store's counts. */
    function DataStatus(): StatusBadge
      reads this
    {
      DataStatusOf(stats)
    }

    /** `systemHealth`, read from the store's two probe badges. */
    function SystemHealth(): Health
      reads this
    {
      HealthOf(blocksStatus, initDbStatus)
    }

    predicate HasNotifications()
      reads this
    {
      |notifications| > 0
    }

    /** `addNotification` with the id `Date.now().toString()` would give passed in. */
    method AddNotification(id: string, kind: Color, title: string, description: W.Option<string>,
      timeout: W.Option<int>)
      modifies this`notifications
      ensures notifications == old(notifications) + [WithId(id, kind, title, description, timeout)]
      ensures HasNotifications()
    {
      notifications := notifications + [Notification(id, kind, title, description, timeout)];
    }

    /** `removeNotification`: `findIndex` then `splice(index, 1)` when found. */
    method RemoveNotification(id: string)
      modifies this`notifications
      ensures notifications == RemoveFirstWhere(old(notifications), HasId(id))
      ensures multiset(notifications) <= multiset(old(notifications))
      ensures (forall k :: 0 <= k < |old(notifications)| ==> old(notifications)[k].id != id)
        ==> notifications == old(notifications)
    {
      var index := FindIndex(notifications, HasId(id));
      SpliceFoundIsRemoveFirst(notifications, HasId(id));
      RemoveFirstMultiset(notifications, HasId(id));
      if index > -1 {
        notifications := RemoveAt(notifications, index);
      }
    }

    method ClearAllNotifications()
      modifies this`notifications
      ensures notifications == [] && !HasNotifications()
    {
      notifications := [];
    }

    /**
     * What `fetchStats` leaves once the request settles: `Ok(n)` is a response holding `n`
     * blocks (`response.blocks?.length || 0`), `Err(m)` a failure whose message is `m` when it
     * was an `Error`.
     */
    method SettleFetchStats(outcome: W.Result<nat, W.Option<string>>)
      modifies this`stats, this`blocksStatus, this`isLoading, this`error
      ensures !isLoading
      ensures outcome.Success? ==> && stats == W.Some(DatabaseStats(outcome.value, 0, 0, 0))
                                   && blocksStatus == ApiStatus("✅ 正常", SuccessColor, Solid)
                                   && error == W.None
      ensures outcome.Failure? ==> && stats == old(stats)
                                   && blocksStatus == ApiStatus("❌ 失败", ErrorColor, Solid)
                                   && error == W.Some(if outcome.error.Some? then outcome.error.value else "获取统计数据失败")
    {
      isLoading := true;
      error := W.None;
      if outcome.Success? {
        stats := W.Some(DatabaseStats(outcome.value, 0, 0, 0));
        blocksStatus := ApiStatus("✅ 正常", SuccessColor, Solid);
      } else {
        blocksStatus := ApiStatus("❌ 失败", ErrorColor, Solid);
        error := W.Some(if outcome.error.Some? then outcome.error.value else "获取统计数据失败");
      }
      isLoading := false;
    }

    /** `reset`: every field back to its initial value. */
    method Reset()
      modifies this
      ensures Initial()
    {
      stats := W.None;
      blocksStatus := InitialBlocksStatus;
      initDbStatus := InitialInitDbStatus;
      isLoading := false;
      error := W.None;
      notifications := [];
    }
  }

  /**
   * A notification removed under a fresh id (one no earlier entry carries) right after it was
   * added leaves the list as it was, which is what the auto-removal timer relies on.
   */
  lemma AddThenRemove(s: seq<Notification>, n: Notification)
    requires forall k :: 0 <= k < |s| ==> s[k].id != n.id
    ensures RemoveFirstWhere(s + [n], HasId(n.id)) == s
  {
    RemoveFirstAfterAppend(s, n, HasId(n.id));
  }

  /** The two probes weigh the same: swapping them does not change the health. */
  lemma HealthSymmetric(blocks: ApiStatus, initDb: ApiStatus)
    ensures HealthOf(blocks, initDb) == HealthOf(initDb, blocks)
  {
  }
}
