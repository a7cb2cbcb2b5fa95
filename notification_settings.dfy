/** Notification preferences: three channels, four kinds of notification
    each, their defaults, one checkbox edit, and the label shown beside a
    checkbox. */
module NotificationSettings {
  import opened Text

  datatype Channel = Email | InApp | Sms
  datatype Kind = Approvals | Reminders | Updates | Marketing

  /** The order the checkboxes of a channel are listed in. */
  const Kinds: seq<Kind> := [Approvals, Reminders, Updates, Marketing]

  datatype ChannelSettings = ChannelSettings(approvals: bool, reminders: bool, updates: bool, marketing: bool)
  datatype Settings = Settings(email: ChannelSettings, inApp: ChannelSettings, sms: ChannelSettings)

  function ChannelOf(s: Settings, c: Channel): ChannelSettings {
    match c
    case Email => s.email
    case InApp => s.inApp
    case Sms => s.sms
  }

  function Flag(cs: ChannelSettings, k: Kind): bool {
    match k
    case Approvals => cs.approvals
    case Reminders => cs.reminders
    case Updates => cs.updates
    case Marketing => cs.marketing
  }

  /** Whether kind `k` is sent on channel `c`. */
  function Enabled(s: Settings, c: Channel, k: Kind): bool {
    Flag(ChannelOf(s, c), k)
  }

  /** The settings the page starts from. */
  const Defaults := Settings(
    ChannelSettings(true, true, false, false),
    ChannelSettings(true, true, true, false),
    ChannelSettings(false, false, false, false))

  /** Email: approvals and reminders on; in-app: all but marketing on; SMS:
      everything off. Marketing is off everywhere. */
  lemma DefaultsAre(c: Channel, k: Kind)
    ensures Enabled(Defaults, c, k) <==>
      (c == Email && (k == Approvals || k == Reminders)) || (c == InApp && k != Marketing)
  {
  }

  function SetFlag(cs: ChannelSettings, k: Kind, checked: bool): ChannelSettings {
    match k
    case Approvals => cs.(approvals := checked)
    case Reminders => cs.(reminders := checked)
    case Updates => cs.(updates := checked)
    case Marketing => cs.(marketing := checked)
  }

  /** A checkbox's `onChange`: `{...s, [channel]: {...s[channel], [key]: checked}}`.
      That one flag takes the new value; every other flag of every channel
      keeps its value. */
  function Toggle(s: Settings, c: Channel, k: Kind, checked: bool): (r: Settings)
    ensures Enabled(r, c, k) == checked
    ensures forall c2, k2 :: (c2, k2) != (c, k) ==> Enabled(r, c2, k2) == Enabled(s, c2, k2)
  {
    match c
    case Email => s.(email := SetFlag(s.email, k, checked))
    case InApp => s.(inApp := SetFlag(s.inApp, k, checked))
    case Sms => s.(sms := SetFlag(s.sms, k, checked))
  }

  /** Clicking a checkbox twice restores the settings. */
  lemma ToggleBack(s: Settings, c: Channel, k: Kind)
    ensures Toggle(Toggle(s, c, k, !Enabled(s, c, k)), c, k, Enabled(s, c, k)) == s
  {
  }

  function KeyName(k: Kind): string {
    match k
    case Approvals => "approvals"
    case Reminders => "reminders"
    case Updates => "updates"
    case Marketing => "marketing"
  }

  /** `key.replace(/([A-Z])/g, ' $1').trim()`. */
  function Label(key: string): string {
    Trim(SpaceBeforeUpper(key))
  }

  /** The four keys are lower-case words, so each label is the key itself
      (upper-casing the first letter is left to the stylesheet). */
  lemma {:induction false} LabelsAreKeys(k: Kind)
    ensures Label(KeyName(k)) == KeyName(k)
  {
    var key := KeyName(k);
    SpaceBeforeUpperNoUpper(key);
    assert !IsWhitespace(key[0]) && !IsWhitespace(key[|key| - 1]);
  }
}
