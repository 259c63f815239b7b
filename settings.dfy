// components/Settings.tsx — reminder switches and intervals, the assistant's
// chat settings, and resetting the conversation.
module Settings {
  import opened Records
  import ChatHistory

  datatype Reminder = Reminder(enabled: bool, interval: int)
  datatype ReminderKey = MindfulMoment | Hydration | EndOfShift
  datatype ReminderSettings = ReminderSettings(mindfulMoment: Reminder, hydration: Reminder, endOfShift: Reminder)

  function Get(s: ReminderSettings, k: ReminderKey): Reminder
  {
    match k
    case MindfulMoment => s.mindfulMoment
    case Hydration => s.hydration
    case EndOfShift => s.endOfShift
  }

  /** `{ ...prev, [key]: r }`. */
  function Put(s: ReminderSettings, k: ReminderKey, r: Reminder): (t: ReminderSettings)
    ensures Get(t, k) == r
    ensures forall j :: j != k ==> Get(t, j) == Get(s, j)
  {
    match k
    case MindfulMoment => s.(mindfulMoment := r)
    case Hydration => s.(hydration := r)
    case EndOfShift => s.(endOfShift := r)
  }

  /** The reminders' defaults: all off, every 2, 1 and 8 hours. */
  const DefaultReminders := ReminderSettings(Reminder(false, 2), Reminder(false, 1), Reminder(false, 8))

  /** The intervals each reminder's menu offers. */
  function Options(k: ReminderKey): seq<int>
  {
    match k
    case MindfulMoment => [1, 2, 3, 4]
    case Hydration => [1, 2, 3]
    case EndOfShift => [6, 8, 10, 12]
  }

  /** Every default interval is on its menu. */
  lemma DefaultsOffered(k: ReminderKey)
    ensures Get(DefaultReminders, k).interval in Options(k)
  {
    match k
    case MindfulMoment => assert Options(k)[1] == 2;
    case Hydration => assert Options(k)[0] == 1;
    case EndOfShift => assert Options(k)[1] == 8;
  }

  /** handleReminderToggle's updater. */
  function Toggle(s: ReminderSettings, k: ReminderKey): ReminderSettings
  {
    Put(s, k, Get(s, k).(enabled := !Get(s, k).enabled))
  }

  /** handleReminderIntervalChange's updater, with `value` the number the
      chosen option reads as. */
  function SetInterval(s: ReminderSettings, k: ReminderKey, value: int): ReminderSettings
  {
    Put(s, k, Get(s, k).(interval := value))
  }

  /** A toggle flips that reminder's switch and nothing else. */
  lemma ToggleOnlyThatKey(s: ReminderSettings, k: ReminderKey)
    ensures Get(Toggle(s, k), k).enabled == !Get(s, k).enabled
    ensures Get(Toggle(s, k), k).interval == Get(s, k).interval
    ensures forall j :: j != k ==> Get(Toggle(s, k), j) == Get(s, j)
  {
  }

  lemma ToggleTwice(s: ReminderSettings, k: ReminderKey)
    ensures Toggle(Toggle(s, k), k) == s
  {
    var t := Toggle(Toggle(s, k), k);
    assert forall j :: Get(t, j) == Get(s, j);
    assert t.mindfulMoment == Get(t, MindfulMoment) && t.hydration == Get(t, Hydration) && t.endOfShift == Get(t, EndOfShift);
  }

  /** An interval change sets that reminder's interval and nothing else. */
  lemma IntervalOnlyThatKey(s: ReminderSettings, k: ReminderKey, value: int)
    ensures Get(SetInterval(s, k, value), k) == Reminder(Get(s, k).enabled, value)
    ensures forall j :: j != k ==> Get(SetInterval(s, k, value), j) == Get(s, j)
  {
  }

  datatype ChatSettings = ChatSettings(personality: string, tone: string, verbosity: string)
  datatype ChatField = Personality | Tone | Verbosity

  const DefaultChatSettings := ChatSettings("empathetic", "casual", "balanced")

  function Field(c: ChatSettings, f: ChatField): string
  {
    match f
    case Personality => c.personality
    case Tone => c.tone
    case Verbosity => c.verbosity
  }

  /** handleChatSettingChange's updater: `{ ...prev, [name]: value }`. */
  function SetField(c: ChatSettings, f: ChatField, value: string): ChatSettings
  {
    match f
    case Personality => c.(personality := value)
    case Tone => c.(tone := value)
    case Verbosity => c.(verbosity := value)
  }

  /** The options of each chat-setting select, in menu order. */
  function ChatOptions(f: ChatField): seq<string>
  {
    match f
    case Personality => ["empathetic", "professional", "friendly", "stoic"]
    case Tone => ["casual", "formal"]
    case Verbosity => ["concise", "balanced", "detailed"]
  }

  /** Every field holds one of its select's options. */
  predicate ChatOffered(c: ChatSettings)
  {
    forall f :: Field(c, f) in ChatOptions(f)
  }

  /** The hook's defaults are options of their selects. */
  lemma ChatDefaultsOffered()
    ensures ChatOffered(DefaultChatSettings)
  {
    forall f: ChatField
      ensures Field(DefaultChatSettings, f) in ChatOptions(f)
    {
      match f
      case Personality => assert ChatOptions(f)[0] == "empathetic";
      case Tone => assert ChatOptions(f)[0] == "casual";
      case Verbosity => assert ChatOptions(f)[1] == "balanced";
    }
  }

  /** Choosing an option from a select keeps every field on its menu. */
  lemma ChatChoiceOffered(c: ChatSettings, f: ChatField, value: string)
    requires ChatOffered(c) && value in ChatOptions(f)
    ensures ChatOffered(SetField(c, f, value))
  {
    forall g: ChatField
      ensures Field(SetField(c, f, value), g) in ChatOptions(g)
    {
      SetFieldOnlyThatField(c, f, value);
    }
  }

  lemma SetFieldOnlyThatField(c: ChatSettings, f: ChatField, value: string)
    ensures Field(SetField(c, f, value), f) == value
    ensures forall g :: g != f ==> Field(SetField(c, f, value), g) == Field(c, g)
  {
  }

  class Panel {
    var reminders: ReminderSettings
    var chat: ChatSettings
    var isCollectiveMindEnabled: bool

    constructor (reminders: ReminderSettings, chat: ChatSettings)
      ensures this.reminders == reminders && this.chat == chat && !isCollectiveMindEnabled
    {
      this.reminders := reminders;
      this.chat := chat;
      isCollectiveMindEnabled := false;
    }

    method ReminderToggle(k: ReminderKey)
      modifies this`reminders
      ensures reminders == Toggle(old(reminders), k)
    {
      reminders := Toggle(reminders, k);
    }

    method ReminderIntervalChange(k: ReminderKey, value: int)
      modifies this`reminders
      ensures reminders == SetInterval(old(reminders), k, value)
    {
      reminders := SetInterval(reminders, k, value);
    }

    method ChatSettingChange(f: ChatField, value: string)
      modifies this`chat
      ensures chat == SetField(old(chat), f, value)
    {
      chat := SetField(chat, f, value);
    }

    method ToggleCollectiveMind()
      modifies this`isCollectiveMindEnabled
      ensures isCollectiveMindEnabled == !old(isCollectiveMindEnabled)
    {
      isCollectiveMindEnabled := !isCollectiveMindEnabled;
    }

    /** handleResetHistory: the conversation is cleared only when the user
        confirms. */
    method ResetHistory(confirmed: bool, history: ChatHistory.History, now: Instant)
      modifies history
      ensures confirmed ==> history.messages == ChatHistory.InitialMessages(now)
      ensures !confirmed ==> history.messages == old(history.messages)
    {
      if confirmed {
        history.ClearHistory(now);
      }
    }
  }
}
