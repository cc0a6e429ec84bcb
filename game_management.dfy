/** The session ledger: ActionHistory (counters and volumes), GameData (the headline gauges
    and the task limit) and GameManager (the Record* operations, the end-of-game check and
    the two scores). The `GameManager.Instance` singleton becomes an explicit object that
    callers pass in; the OnTaskCompleted / OnGameEnded events become counters of signals. */
module GameManagement {

  import opened WaterMath

  /** ActionHistory: every volume and count of one session. */
  datatype ActionHistory = ActionHistory(
    WaterDrawn: real,
    WaterUsedForFarming: real,
    WaterUsedForDrinking: real,
    WaterUsedForWashing: real,
    WaterWasted: real,
    WaterPolluted: real,
    DrawCount: int,
    FarmCount: int,
    DrinkCount: int,
    WashCount: int,
    WasteCount: int)
  {
    /** TotalTasksCompleted: washing is not counted. */
    function TotalTasksCompleted(): int
    {
      DrawCount + FarmCount + DrinkCount + WasteCount
    }
  }

  /** `new ActionHistory()`: every field at its default, zero. */
  const FreshHistory := ActionHistory(0.0, 0.0, 0.0, 0.0, 0.0, 0.0, 0, 0, 0, 0, 0)

  /** A fresh history has completed nothing; washing never moves the total; raising any one
      of the four counted fields by one raises the total by exactly one. */
  lemma TotalTasksFacts(h: ActionHistory, amount: real, n: int)
    ensures FreshHistory.TotalTasksCompleted() == 0
    ensures h.(WashCount := n, WaterUsedForWashing := amount).TotalTasksCompleted()
            == h.TotalTasksCompleted()
    ensures h.(DrawCount := h.DrawCount + 1).TotalTasksCompleted() == h.TotalTasksCompleted() + 1
    ensures h.(FarmCount := h.FarmCount + 1).TotalTasksCompleted() == h.TotalTasksCompleted() + 1
    ensures h.(DrinkCount := h.DrinkCount + 1).TotalTasksCompleted() == h.TotalTasksCompleted() + 1
    ensures h.(WasteCount := h.WasteCount + 1).TotalTasksCompleted() == h.TotalTasksCompleted() + 1
  {
  }

  /** GameManager.SAFE_QUALITY_THRESHOLD. */
  const SafeQualityThreshold := 80.0

  /** The whole observable state of a GameManager: its GameData and how often each event fired. */
  datatype Session = Session(
    maxTasks: int,
    waterVolume: real,
    waterQuality: real,
    stamina: real,
    history: ActionHistory,
    taskCompletedSignals: nat,
    gameEndedSignals: nat)

  /** What every Record* does last: fire OnTaskCompleted, then CheckGameCompletion, which fires
      OnGameEnded whenever the total has reached MaxTasks (with no once-only guard). */
  function Signal(s: Session): (r: Session)
    ensures r.taskCompletedSignals == s.taskCompletedSignals + 1
    ensures r.gameEndedSignals == s.gameEndedSignals
              + (if s.history.TotalTasksCompleted() >= s.maxTasks then 1 else 0)
    ensures r.(taskCompletedSignals := s.taskCompletedSignals, gameEndedSignals := s.gameEndedSignals) == s
  {
    var s1 := s.(taskCompletedSignals := s.taskCompletedSignals + 1);
    if s1.history.TotalTasksCompleted() >= s1.maxTasks
    then s1.(gameEndedSignals := s1.gameEndedSignals + 1)
    else s1
  }

  /** RecordDrawWater(amount, quality). */
  function DrawStep(s: Session, amount: real, quality: real): Session
  {
    var h := s.history;
    Signal(s.(waterVolume := s.waterVolume + amount,
              waterQuality := if s.waterQuality >= quality then s.waterQuality else quality,
              history := h.(WaterDrawn := h.WaterDrawn + amount, DrawCount := h.DrawCount + 1)))
  }

  /** RecordFarming(amount): the quality gauge drops by 5 with no clamp. */
  function FarmStep(s: Session, amount: real): Session
  {
    var h := s.history;
    Signal(s.(waterVolume := s.waterVolume - amount,
              waterQuality := s.waterQuality - 5.0,
              history := h.(WaterUsedForFarming := h.WaterUsedForFarming + amount,
                            FarmCount := h.FarmCount + 1)))
  }

  /** The stamina after a drink of the given quality: +10 when safe, -10 otherwise, then
      clamped to [0, 100]. */
  function StaminaAfterDrink(stamina: real, quality: real): (r: real)
    ensures 0.0 <= r <= 100.0
    ensures quality >= SafeQualityThreshold && stamina + 10.0 <= 100.0 && stamina >= -10.0 ==> r == stamina + 10.0
    ensures quality < SafeQualityThreshold && stamina - 10.0 >= 0.0 && stamina <= 110.0 ==> r == stamina - 10.0
    ensures quality >= SafeQualityThreshold && 0.0 <= stamina ==> r >= stamina || r == 100.0
    ensures quality < SafeQualityThreshold && stamina <= 100.0 ==> r <= stamina || r == 0.0
  {
    var change := if quality >= SafeQualityThreshold then 10.0 else -10.0;
    Clamp(stamina + change, 0.0, 100.0)
  }

  /** RecordDrinking(amount, quality). */
  function DrinkStep(s: Session, amount: real, quality: real): Session
  {
    var h := s.history;
    Signal(s.(waterVolume := s.waterVolume - amount,
              stamina := StaminaAfterDrink(s.stamina, quality),
              history := h.(WaterUsedForDrinking := h.WaterUsedForDrinking + amount,
                            DrinkCount := h.DrinkCount + 1)))
  }

  /** RecordWaste(amount): the quality gauge drops by 10 with no clamp. */
  function WasteStep(s: Session, amount: real): Session
  {
    var h := s.history;
    Signal(s.(waterVolume := s.waterVolume - amount,
              waterQuality := s.waterQuality - 10.0,
              history := h.(WaterWasted := h.WaterWasted + amount,
                            WaterPolluted := h.WaterPolluted + amount,
                            WasteCount := h.WasteCount + 1)))
  }

  /** A draw as the water source and the tap make it: RecordDrawWater, then
      `Data.Stamina -= staminaCost` with no clamp. */
  function DrawAndSpend(s: Session, amount: real, quality: real, cost: real): Session
  {
    var d := DrawStep(s, amount, quality);
    d.(stamina := d.stamina - cost)
  }

  /** A draw completes one task, adds the amount to the volume and the drawn total, raises
      the quality gauge to at least the drawn quality, and costs exactly `cost` stamina,
      which may leave the gauge outside [0, 100]. */
  lemma DrawAndSpendFacts(s: Session, amount: real, quality: real, cost: real)
    ensures var r := DrawAndSpend(s, amount, quality, cost);
            && r.history.TotalTasksCompleted() == s.history.TotalTasksCompleted() + 1
            && r.taskCompletedSignals == s.taskCompletedSignals + 1
            && r.waterVolume == s.waterVolume + amount
            && r.history.WaterDrawn == s.history.WaterDrawn + amount
            && r.waterQuality == Max(s.waterQuality, quality)
            && r.stamina == s.stamina - cost
            && r.maxTasks == s.maxTasks
  {
  }

  /** One call of a GameManager Record* operation, with its arguments. */
  datatype Record = Draw(amount: real, quality: real) | Farm(amount: real)
                  | Drink(amount: real, quality: real) | Waste(amount: real)

  function Apply(s: Session, r: Record): Session
  {
    match r
    case Draw(a, q) => DrawStep(s, a, q)
    case Farm(a) => FarmStep(s, a)
    case Drink(a, q) => DrinkStep(s, a, q)
    case Waste(a) => WasteStep(s, a)
  }

  /** Every record completes exactly one task, fires OnTaskCompleted once, fires OnGameEnded
      exactly when the new total has reached MaxTasks, and leaves MaxTasks, washing and every
      other kind's counter alone. */
  lemma RecordCompletesOneTask(s: Session, r: Record)
    ensures var t := Apply(s, r);
            && t.history.TotalTasksCompleted() == s.history.TotalTasksCompleted() + 1
            && t.taskCompletedSignals == s.taskCompletedSignals + 1
            && t.gameEndedSignals == s.gameEndedSignals
                 + (if s.history.TotalTasksCompleted() + 1 >= s.maxTasks then 1 else 0)
            && t.maxTasks == s.maxTasks
            && t.history.WashCount == s.history.WashCount
            && t.history.WaterUsedForWashing == s.history.WaterUsedForWashing
  {
  }

  /** Each record raises exactly its own counter and volume by its amount. */
  lemma RecordTouchesItsOwnCounter(s: Session, r: Record)
    ensures var h, g := s.history, Apply(s, r).history;
            match r
            case Draw(a, _) => g == h.(WaterDrawn := h.WaterDrawn + a, DrawCount := h.DrawCount + 1)
            case Farm(a) => g == h.(WaterUsedForFarming := h.WaterUsedForFarming + a, FarmCount := h.FarmCount + 1)
            case Drink(a, _) => g == h.(WaterUsedForDrinking := h.WaterUsedForDrinking + a, DrinkCount := h.DrinkCount + 1)
            case Waste(a) => g == h.(WaterWasted := h.WaterWasted + a, WaterPolluted := h.WaterPolluted + a,
                                     WasteCount := h.WasteCount + 1)
  {
  }

  function ApplyAll(s: Session, rs: seq<Record>): Session
    decreases |rs|
  {
    if rs == [] then s else ApplyAll(Apply(s, rs[0]), rs[1..])
  }

  /** Counts never go down: after any run of records every counter has grown by at least 0,
      the total by exactly the number of records, and OnTaskCompleted has fired once each. */
  lemma {:induction false} RunCountsTasks(s: Session, rs: seq<Record>)
    ensures var t := ApplyAll(s, rs);
            && t.history.TotalTasksCompleted() == s.history.TotalTasksCompleted() + |rs|
            && t.taskCompletedSignals == s.taskCompletedSignals + |rs|
            && t.history.DrawCount >= s.history.DrawCount
            && t.history.FarmCount >= s.history.FarmCount
            && t.history.DrinkCount >= s.history.DrinkCount
            && t.history.WasteCount >= s.history.WasteCount
            && t.maxTasks == s.maxTasks
    decreases |rs|
  {
    if rs != [] {
      RecordCompletesOneTask(s, rs[0]);
      RunCountsTasks(Apply(s, rs[0]), rs[1..]);
    }
  }

  /** EndGame has no once-only guard: once the total has reached MaxTasks, every further
      record fires OnGameEnded again, so a run of n records past the limit fires it n times. */
  lemma {:induction false} GameEndsAgainOnEveryRecord(s: Session, rs: seq<Record>)
    requires s.history.TotalTasksCompleted() + 1 >= s.maxTasks
    ensures ApplyAll(s, rs).gameEndedSignals == s.gameEndedSignals + |rs|
    decreases |rs|
  {
    if rs != [] {
      RecordCompletesOneTask(s, rs[0]);
      GameEndsAgainOnEveryRecord(Apply(s, rs[0]), rs[1..]);
    }
  }

  /** Before the limit, the game never ends: with the total plus the run's length below
      MaxTasks, OnGameEnded does not fire. */
  lemma {:induction false} NoEndBeforeLimit(s: Session, rs: seq<Record>)
    requires s.history.TotalTasksCompleted() + |rs| < s.maxTasks
    ensures ApplyAll(s, rs).gameEndedSignals == s.gameEndedSignals
    decreases |rs|
  {
    if rs != [] {
      RecordCompletesOneTask(s, rs[0]);
      NoEndBeforeLimit(Apply(s, rs[0]), rs[1..]);
    }
  }

  /** The stamina gauge stays in [0, 100] after a drink, whatever it was before. */
  lemma DrinkKeepsStaminaInRange(s: Session, amount: real, quality: real)
    ensures 0.0 <= DrinkStep(s, amount, quality).stamina <= 100.0
    ensures DrinkStep(s, amount, quality).waterQuality == s.waterQuality
  {
  }

  /** CalculateHygiene: the unsafe volume is fixed at 0 in this version, so the score is 100
      for every history. */
  function CalculateHygiene(h: ActionHistory): (r: real)
    ensures r == 100.0
  {
    var totalUsed := h.WaterUsedForDrinking + h.WaterUsedForFarming;
    var unsafeUsed := 0.0;
    if totalUsed == 0.0 then 100.0 else (1.0 - unsafeUsed / totalUsed) * 100.0
  }

  /** CalculateEfficiency: drinking plus farming over drawn, as a percentage; 0 when nothing
      was drawn. Waste and washing do not enter. */
  function CalculateEfficiency(h: ActionHistory): (r: real)
    ensures h.WaterDrawn == 0.0 ==> r == 0.0
    ensures h.WaterDrawn != 0.0 ==> r * h.WaterDrawn == (h.WaterUsedForDrinking + h.WaterUsedForFarming) * 100.0
  {
    var totalDrawn := h.WaterDrawn;
    var totalUsed := h.WaterUsedForDrinking + h.WaterUsedForFarming;
    if totalDrawn == 0.0 then 0.0 else (totalUsed / totalDrawn) * 100.0
  }

  /** The efficiency is a percentage when the used volumes are non-negative and at most what
      was drawn; and neither wasting nor washing moves it. */
  lemma EfficiencyIsPercentage(h: ActionHistory, wasted: real, washed: real)
    requires h.WaterUsedForDrinking >= 0.0 && h.WaterUsedForFarming >= 0.0
    requires h.WaterUsedForDrinking + h.WaterUsedForFarming <= h.WaterDrawn
    ensures 0.0 <= CalculateEfficiency(h) <= 100.0
    ensures CalculateEfficiency(h.(WaterWasted := wasted, WaterUsedForWashing := washed)) == CalculateEfficiency(h)
  {
    var used := h.WaterUsedForDrinking + h.WaterUsedForFarming;
    if h.WaterDrawn != 0.0 {
      var ratio := used / h.WaterDrawn;
      assert ratio * h.WaterDrawn == used;
      assert h.WaterDrawn > 0.0;
    }
  }

  // ---- GameData ------------------------------------------------------------------------

  /** GameData: the gauges shown to the player, the task limit and the history. */
  class GameData {
    var MaxTasks: int
    var WaterVolume: real
    var WaterQuality: real
    var Stamina: real
    var History: ActionHistory

    /** The field initialisers: MaxTasks 5, an empty volume, quality and stamina at 100. */
    constructor ()
      ensures MaxTasks == 5
      ensures IsFreshExceptLimit()
    {
      MaxTasks := 5;
      WaterVolume := 0.0;
      WaterQuality := 100.0;
      Stamina := 100.0;
      History := FreshHistory;
    }

    /** The state the initialisers give, whatever the task limit. */
    predicate IsFreshExceptLimit()
      reads this
    {
      WaterVolume == 0.0 && WaterQuality == 100.0 && Stamina == 100.0 && History == FreshHistory
    }

    /** Reset: the gauges back to their initial values and a new, all-zero ActionHistory;
        MaxTasks is kept. Running it twice leaves the same state as running it once. */
    method Reset()
      modifies this
      ensures IsFreshExceptLimit()
      ensures MaxTasks == old(MaxTasks)
    {
      WaterVolume := 0.0;
      WaterQuality := 100.0;
      Stamina := 100.0;
      History := FreshHistory;
    }
  }

  // ---- GameManager ---------------------------------------------------------------------

  class GameManager {
    /** Assigned once, when the manager is created. */
    const Data: GameData
    var taskCompletedSignals: nat   // times OnTaskCompleted fired
    var gameEndedSignals: nat       // times OnGameEnded fired

    constructor ()
      ensures fresh(Data)
      ensures State() == Session(5, 0.0, 100.0, 100.0, FreshHistory, 0, 0)
    {
      Data := new GameData();
      taskCompletedSignals := 0;
      gameEndedSignals := 0;
    }

    ghost function State(): Session
      reads this, Data
    {
      Session(Data.MaxTasks, Data.WaterVolume, Data.WaterQuality, Data.Stamina, Data.History,
              taskCompletedSignals, gameEndedSignals)
    }

    /** Start: the session data is reset. */
    method Start()
      modifies Data
      ensures State() == old(State()).(waterVolume := 0.0, waterQuality := 100.0, stamina := 100.0,
                                        history := FreshHistory)
    {
      Data.Reset();
    }

    method EndGame()
      modifies this`gameEndedSignals
      ensures gameEndedSignals == old(gameEndedSignals) + 1
    {
      gameEndedSignals := gameEndedSignals + 1;
    }

    method CheckGameCompletion()
      modifies this`gameEndedSignals
      ensures gameEndedSignals == old(gameEndedSignals)
                + (if Data.History.TotalTasksCompleted() >= Data.MaxTasks then 1 else 0)
    {
      if Data.History.TotalTasksCompleted() >= Data.MaxTasks {
        EndGame();
      }
    }

    method RecordDrawWater(amount: real, quality: real)
      modifies this`taskCompletedSignals, this`gameEndedSignals
      modifies Data`WaterVolume, Data`WaterQuality, Data`Stamina, Data`History
      ensures State() == DrawStep(old(State()), amount, quality)
    {
      Data.WaterVolume := Data.WaterVolume + amount;
      Data.WaterQuality := if Data.WaterQuality >= quality then Data.WaterQuality else quality;
      Data.History := Data.History.(WaterDrawn := Data.History.WaterDrawn + amount,
                                    DrawCount := Data.History.DrawCount + 1);
      taskCompletedSignals := taskCompletedSignals + 1;
      CheckGameCompletion();
    }

    method RecordFarming(amount: real)
      modifies this`taskCompletedSignals, this`gameEndedSignals
      modifies Data`WaterVolume, Data`WaterQuality, Data`Stamina, Data`History
      ensures State() == FarmStep(old(State()), amount)
    {
      Data.WaterVolume := Data.WaterVolume - amount;
      Data.WaterQuality := Data.WaterQuality - 5.0;
      Data.History := Data.History.(WaterUsedForFarming := Data.History.WaterUsedForFarming + amount,
                                    FarmCount := Data.History.FarmCount + 1);
      taskCompletedSignals := taskCompletedSignals + 1;
      CheckGameCompletion();
    }

    method RecordDrinking(amount: real, quality: real)
      modifies this`taskCompletedSignals, this`gameEndedSignals
      modifies Data`WaterVolume, Data`WaterQuality, Data`Stamina, Data`History
      ensures State() == DrinkStep(old(State()), amount, quality)
    {
      Data.WaterVolume := Data.WaterVolume - amount;
      var isSafe := quality >= SafeQualityThreshold;
      var staminaChange := if isSafe then 10.0 else -10.0;
      Data.Stamina := Data.Stamina + staminaChange;
      Data.Stamina := Clamp(Data.Stamina, 0.0, 100.0);
      Data.History := Data.History.(WaterUsedForDrinking := Data.History.WaterUsedForDrinking + amount,
                                    DrinkCount := Data.History.DrinkCount + 1);
      taskCompletedSignals := taskCompletedSignals + 1;
      CheckGameCompletion();
    }

    method RecordWaste(amount: real)
      modifies this`taskCompletedSignals, this`gameEndedSignals
      modifies Data`WaterVolume, Data`WaterQuality, Data`Stamina, Data`History
      ensures State() == WasteStep(old(State()), amount)
    {
      Data.WaterVolume := Data.WaterVolume - amount;
      Data.WaterQuality := Data.WaterQuality - 10.0;
      Data.History := Data.History.(WaterWasted := Data.History.WaterWasted + amount,
                                    WaterPolluted := Data.History.WaterPolluted + amount,
                                    WasteCount := Data.History.WasteCount + 1);
      taskCompletedSignals := taskCompletedSignals + 1;
      CheckGameCompletion();
    }

    /** The `Data.Stamina -= staminaCost` a tap applies after drawing, with no clamp. */
    method SpendStamina(cost: real)
      modifies Data`Stamina
      ensures State() == old(State()).(stamina := old(State()).stamina - cost)
    {
      Data.Stamina := Data.Stamina - cost;
    }
  }
}
