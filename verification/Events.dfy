/** What travels through a worker's inbox: every work item, its lane and its kind. */
module Events {
  import opened Basics
  import opened Queues

  datatype ActionOutcome =
    | DeliveredSent
    | Confirmed(stateId: int)
    | Corrected(stateId: int)
    | Error(code: string)

  datatype ActionResult = ActionResult(requestId: nat, botId: nat, outcome: ActionOutcome)

  datatype PresentationEvent =
    | PresentedChat | ActionBarChanged | TitleChanged | SubtitleChanged | TitleTimingChanged
    | TitlesCleared | TabListChanged | BossBarChanged | PresentedDisconnect

  datatype ScoreboardEvent = ObjectiveChanged | DisplaySlotChanged | ScoreChanged | TeamChanged

  datatype HudEvent =
    | VitalsChanged | ExperienceChanged | GameModeChanged | AbilitiesChanged | HotbarChanged
    | CooldownChanged | EffectChanged | AttributesChanged | HudDeath | Respawned
    | WorldBorderChanged | TimeChanged | WeatherChanged | DifficultyChanged
    | SpawnPositionChanged | PlayerListChanged

  datatype InventoryEvent =
    | WindowOpened | WindowClosed | WindowSynchronized(firstSync: bool) | SlotUpdated
    | CursorUpdated | PropertyUpdated | SelectedHotbarChanged | TransactionQueued
    | TransactionSent | TransactionFinished | TransactionRejected

  datatype BotEvent =
    | Login | Spawned | Health | Death | Chat | SystemChat | PlayerJoined | PlayerLeft
    | EntitySpawned | EntityRemoved | Time | Weather | Kicked
    | Presentation(presentation: PresentationEvent)
    | Scoreboard(scoreboard: ScoreboardEvent)
    | Hud(hud: HudEvent)
    | Inventory(inventory: InventoryEvent)
    | Connecting | Connected | Disconnected | ReconnectScheduled | RetryAttemptStarted
    | RetriesExhausted | StoppedByCancellation

  datatype WorkItem =
    | Bot(event: BotEvent)
    | ActionDone(result: ActionResult)
    | CallbackCompletion(result: ActionResult)
    | Message(topic: string)
    | TimerFired(timerId: nat)
    | ScriptError(eventName: string)
    | ScriptDisabled(reason: string)
    | WorkerOverloaded

  function PresentationName(e: PresentationEvent): string {
    match e
    case PresentedChat => "presentation"
    case ActionBarChanged => "action_bar"
    case TitleChanged => "title"
    case SubtitleChanged => "title"
    case TitleTimingChanged => "title"
    case TitlesCleared => "title"
    case TabListChanged => "presentation"
    case BossBarChanged => "boss_bar"
    case PresentedDisconnect => "presentation"
  }

  function HudName(e: HudEvent): string {
    match e
    case HudDeath => "death"
    case TimeChanged => "time"
    case WeatherChanged => "weather"
    case PlayerListChanged => "player_updated"
    case _ => "hud"
  }

  function InventoryName(e: InventoryEvent): string {
    match e
    case WindowClosed => "gui_closed"
    case WindowSynchronized(first) => if first then "gui_opened" else "inventory"
    case _ => "inventory"
  }

  function BotEventName(e: BotEvent): string {
    match e
    case Login => "login"
    case Spawned => "spawned"
    case Health => "health"
    case Death => "death"
    case Chat => "chat"
    case SystemChat => "system_chat"
    case PlayerJoined => "player_joined"
    case PlayerLeft => "player_left"
    case EntitySpawned => "entity_spawned"
    case EntityRemoved => "entity_removed"
    case Time => "time"
    case Weather => "weather"
    case Kicked => "kicked"
    case Presentation(p) => PresentationName(p)
    case Scoreboard(s) => if s == TeamChanged then "team" else "scoreboard"
    case Hud(h) => HudName(h)
    case Inventory(i) => InventoryName(i)
    case Connecting => "connecting"
    case Connected => "connected"
    case Disconnected => "disconnected"
    case ReconnectScheduled => "reconnect_scheduled"
    case RetryAttemptStarted => "retry_started"
    case RetriesExhausted => "retries_exhausted"
    case StoppedByCancellation => "stopped"
  }

  function NameOf(w: WorkItem): string {
    match w
    case Bot(e) => BotEventName(e)
    case ActionDone(_) => "action_result"
    case CallbackCompletion(_) => "callback_completion"
    case Message(_) => "message"
    case TimerFired(_) => "timer"
    case ScriptError(_) => "script_error"
    case ScriptDisabled(_) => "script_disabled"
    case WorkerOverloaded => "worker_overload"
  }

  function BotEventPriority(e: BotEvent): Priority {
    match e
    case Connecting | Connected | Disconnected | ReconnectScheduled | RetryAttemptStarted => High
    case RetriesExhausted | StoppedByCancellation | Kicked | Death | Login | Spawned => High
    case Health | Time | Weather => Coalescible
    case Hud(h) => if h == HudDeath || h == Respawned then High else Coalescible
    case Inventory(i) =>
      if i in {WindowClosed, WindowSynchronized(true), TransactionFinished, TransactionRejected} then High else Low
    case _ => Low
  }

  function PriorityOf(w: WorkItem): Priority {
    match w
    case Bot(e) => BotEventPriority(e)
    case ActionDone(_) | CallbackCompletion(_) | ScriptError(_) | ScriptDisabled(_) => High
    case Message(_) | TimerFired(_) | WorkerOverloaded => Low
  }

  /** A work item as the queue sees it. */
  function AsItem(w: WorkItem): QueueItem<WorkItem> {
    QueueItem(PriorityOf(w), NameOf(w), w)
  }

  /** The request whose one-shot callback this item can settle. */
  function Request(w: WorkItem): Option<nat> {
    match w
    case ActionDone(r) => Some(r.requestId)
    case CallbackCompletion(r) => Some(r.requestId)
    case _ => None
  }

  /** The kinds named in the documented list of what is never silently dropped. */
  const CRITICAL_KINDS := {
    "connected", "disconnected", "reconnect_scheduled", "retries_exhausted", "stopped", "kicked", "death",
    "gui_opened", "gui_closed", "action_result", "script_error", "script_disabled"}

  /** The documented list: these kinds, the outcomes of inventory transactions, and the
      synthetic items that are always critical. */
  predicate Documented(w: WorkItem) {
    || NameOf(w) in CRITICAL_KINDS
    || w == Bot(Inventory(TransactionFinished)) || w == Bot(Inventory(TransactionRejected))
    || w.ActionDone? || w.CallbackCompletion? || w.ScriptError? || w.ScriptDisabled?
  }

  /** What the high lane carries beyond that list. */
  const EXTRA := {Bot(Connecting), Bot(RetryAttemptStarted), Bot(Login), Bot(Spawned), Bot(Hud(Respawned))}

  /** Every documented item travels in the high lane.  Exactly five more kinds of event do, and
      none of them is on the list. */
  lemma HighLaneIsCriticalKindsAndMore(w: WorkItem)
    ensures PriorityOf(w) == High <==> Documented(w) || w in EXTRA
    ensures w in EXTRA ==> !Documented(w)
  {
    match w
    case Bot(e) => BotEventLane(e);
    case _ => assert NameOf(w)[0] in {'a', 'c', 'm', 't', 's', 'w'};
  }

  lemma BotEventLane(e: BotEvent)
    ensures BotEventPriority(e) == High <==> Documented(Bot(e)) || Bot(e) in EXTRA
    ensures Bot(e) in EXTRA ==> !Documented(Bot(e))
  {
    match e
    case Presentation(p) => assert PresentationName(p)[0] in {'p', 'a', 't', 'b'};
    case Hud(h) =>
    case Inventory(i) =>
    case _ =>
  }

  /** Coalescing keeps one value per kind, and most HUD changes share the kind "hud":
      an update of one of them displaces a pending update of another. */
  lemma HudKindsDisplaceEachOther(bot: nat, a: HudEvent, b: HudEvent, i: nat, j: nat, highCapacity: nat, lowCapacity: nat)
    requires a != HudDeath && a != Respawned && b != HudDeath && b != Respawned
    ensures
      var x := Envelope(bot, AsItem(Bot(Hud(a))), i);
      var y := Envelope(bot, AsItem(Bot(Hud(b))), j);
      Ready(Then(Then(Empty, x), y), highCapacity, lowCapacity)
      == if HudName(a) == HudName(b) then [y] else [x, y]
  {
    var x := Envelope(bot, AsItem(Bot(Hud(a))), i);
    var y := Envelope(bot, AsItem(Bot(Hud(b))), j);
    var h1 := Then(Empty, x);
    var h2 := Then(h1, y);
    assert Keys(h1) == [KeyOf(x)];
    assert Lane(h1, High) == [] && Lane(h1, Low) == [];
    assert Latest(h1, KeyOf(x)) == x;
    if HudName(a) == HudName(b) {
      assert Keys(h2) == [KeyOf(x)];
      assert Newest(h2) == [y];
    } else {
      assert Keys(h2) == [KeyOf(x), KeyOf(y)];
      assert Newest(h2) == [x, y];
    }
  }

  // ------------------------------------------------- names and lanes, against the reference

  // Every event has the name that the event reference of the script interface gives it.

  /** Connecting, and connecting again. */
  lemma LifecycleNames()
    ensures BotEventName(Connecting) == "connecting"
    ensures BotEventName(Connected) == "connected"
    ensures BotEventName(Disconnected) == "disconnected"
    ensures BotEventName(ReconnectScheduled) == "reconnect_scheduled"
    ensures BotEventName(RetryAttemptStarted) == "retry_started"
    ensures BotEventName(RetriesExhausted) == "retries_exhausted"
  {
  }

  /** The ends of a session, and its beginning. */
  lemma SessionNames()
    ensures BotEventName(StoppedByCancellation) == "stopped"
    ensures BotEventName(Kicked) == "kicked"
    ensures BotEventName(Login) == "login"
    ensures BotEventName(Spawned) == "spawned"
    ensures BotEventName(Death) == "death"
  {
  }

  /** What happens around the bot. */
  lemma WorldNames()
    ensures BotEventName(Health) == "health"
    ensures BotEventName(Chat) == "chat"
    ensures BotEventName(SystemChat) == "system_chat"
    ensures BotEventName(PlayerJoined) == "player_joined"
    ensures BotEventName(PlayerLeft) == "player_left"
    ensures BotEventName(EntitySpawned) == "entity_spawned"
    ensures BotEventName(EntityRemoved) == "entity_removed"
    ensures BotEventName(Time) == "time"
    ensures BotEventName(Weather) == "weather"
  {
  }

  /** What is shown to the player. */
  lemma PresentationNames()
    ensures BotEventName(Presentation(PresentedChat)) == "presentation"
    ensures BotEventName(Presentation(TabListChanged)) == "presentation"
    ensures BotEventName(Presentation(PresentedDisconnect)) == "presentation"
    ensures BotEventName(Presentation(ActionBarChanged)) == "action_bar"
    ensures BotEventName(Presentation(TitleChanged)) == "title"
    ensures BotEventName(Presentation(SubtitleChanged)) == "title"
    ensures BotEventName(Presentation(TitleTimingChanged)) == "title"
    ensures BotEventName(Presentation(TitlesCleared)) == "title"
    ensures BotEventName(Presentation(BossBarChanged)) == "boss_bar"
  {
  }

  /** The scoreboard. */
  lemma ScoreboardNames()
    ensures BotEventName(Scoreboard(ObjectiveChanged)) == "scoreboard"
    ensures BotEventName(Scoreboard(ScoreChanged)) == "scoreboard"
    ensures BotEventName(Scoreboard(DisplaySlotChanged)) == "scoreboard"
    ensures BotEventName(Scoreboard(TeamChanged)) == "team"
  {
  }

  /** What the reference lists only as every other HUD or inventory change is named so. */
  lemma HudAndInventoryNames(h: HudEvent, i: InventoryEvent)
    ensures BotEventName(Hud(HudDeath)) == "death"
    ensures BotEventName(Hud(PlayerListChanged)) == "player_updated"
    ensures BotEventName(Hud(TimeChanged)) == "time"
    ensures BotEventName(Hud(WeatherChanged)) == "weather"
    ensures BotEventName(Inventory(WindowSynchronized(true))) == "gui_opened"
    ensures BotEventName(Inventory(WindowClosed)) == "gui_closed"
    ensures h !in {HudDeath, PlayerListChanged, TimeChanged, WeatherChanged} ==> BotEventName(Hud(h)) == "hud"
    ensures i !in {WindowClosed, WindowSynchronized(true)} ==> BotEventName(Inventory(i)) == "inventory"
  {
  }

  /** Only the latest of these counts: health, time and weather, and every HUD change but a
      death and a respawn.  Together with the high lane this decides the lane of every event. */
  lemma LatestOnly(e: BotEvent)
    ensures BotEventPriority(e) == Coalescible <==>
            e == Health || e == Time || e == Weather || (e.Hud? && e.hud != HudDeath && e.hud != Respawned)
    ensures BotEventPriority(e) == Low <==> !(PriorityOf(Bot(e)) == High || PriorityOf(Bot(e)) == Coalescible)
  {
  }

  /** The items that are not events of a bot. */
  lemma OtherItems(w: WorkItem)
    requires !w.Bot?
    ensures PriorityOf(w) == High <==> w.ActionDone? || w.CallbackCompletion? || w.ScriptError? || w.ScriptDisabled?
    ensures PriorityOf(w) == Low <==> w.Message? || w.TimerFired? || w.WorkerOverloaded?
    ensures Request(w) == if w.ActionDone? || w.CallbackCompletion? then Some(w.result.requestId) else None
  {
  }
}
