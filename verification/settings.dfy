/**
 * The settings page: the profile and password form, the display
 * preferences, the notification switches, and the ordered checks of the
 * "Update Password" button.
 */
module Settings {
  import opened Common
  import Auth

  /** The form record; every input's `id` is the name of one of its fields. */
  datatype FormData = FormData(name: string, email: string, company: string, phone: string,
                               currentPassword: string, newPassword: string, confirmPassword: string)

  datatype FormField = Name | Email | Company | Phone | CurrentPassword | NewPassword | ConfirmPassword

  function Field(f: FormData, k: FormField): string
  {
    match k
    case Name => f.name
    case Email => f.email
    case Company => f.company
    case Phone => f.phone
    case CurrentPassword => f.currentPassword
    case NewPassword => f.newPassword
    case ConfirmPassword => f.confirmPassword
  }

  /** `{ ...formData, [id]: value }`. */
  function WithField(f: FormData, k: FormField, v: string): (r: FormData)
    ensures Field(r, k) == v
    ensures forall j :: j != k ==> Field(r, j) == Field(f, j)
  {
    match k
    case Name => f.(name := v)
    case Email => f.(email := v)
    case Company => f.(company := v)
    case Phone => f.(phone := v)
    case CurrentPassword => f.(currentPassword := v)
    case NewPassword => f.(newPassword := v)
    case ConfirmPassword => f.(confirmPassword := v)
  }

  /** Two forms that agree on every field are the same form. */
  lemma FieldsDetermineForm(a: FormData, b: FormData)
    requires forall k :: Field(a, k) == Field(b, k)
    ensures a == b
  {
    assert Field(a, Name) == Field(b, Name) && Field(a, Email) == Field(b, Email);
    assert Field(a, Company) == Field(b, Company) && Field(a, Phone) == Field(b, Phone);
    assert Field(a, CurrentPassword) == Field(b, CurrentPassword);
    assert Field(a, NewPassword) == Field(b, NewPassword);
    assert Field(a, ConfirmPassword) == Field(b, ConfirmPassword);
  }

  /** Typing the value a field already holds leaves the form as it was. */
  lemma WithFieldUnchanged(f: FormData, k: FormField)
    ensures WithField(f, k, Field(f, k)) == f
  {
    FieldsDetermineForm(WithField(f, k, Field(f, k)), f);
  }

  /** The last edit of a field wins. */
  lemma WithFieldOverwrites(f: FormData, k: FormField, v: string, w: string)
    ensures WithField(WithField(f, k, v), k, w) == WithField(f, k, w)
  {
    FieldsDetermineForm(WithField(WithField(f, k, v), k, w), WithField(f, k, w));
  }

  datatype Preferences = Preferences(darkMode: bool, compactView: bool, autoSave: bool)
  datatype PreferenceKey = DarkMode | CompactView | AutoSave

  function Preference(p: Preferences, k: PreferenceKey): bool
  {
    match k
    case DarkMode => p.darkMode
    case CompactView => p.compactView
    case AutoSave => p.autoSave
  }

  /** `{ ...preferences, [setting]: !preferences[setting] }`. */
  function TogglePreference(p: Preferences, k: PreferenceKey): (r: Preferences)
    ensures Preference(r, k) == !Preference(p, k)
    ensures forall j :: j != k ==> Preference(r, j) == Preference(p, j)
  {
    match k
    case DarkMode => p.(darkMode := !p.darkMode)
    case CompactView => p.(compactView := !p.compactView)
    case AutoSave => p.(autoSave := !p.autoSave)
  }

  /** Flipping the same preference twice restores the record. */
  lemma TogglePreferenceTwice(p: Preferences, k: PreferenceKey)
    ensures TogglePreference(TogglePreference(p, k), k) == p
  {
    var r := TogglePreference(TogglePreference(p, k), k);
    assert Preference(r, DarkMode) == Preference(p, DarkMode);
    assert Preference(r, CompactView) == Preference(p, CompactView);
    assert Preference(r, AutoSave) == Preference(p, AutoSave);
  }

  /** Flips of different preferences commute. */
  lemma TogglePreferencesCommute(p: Preferences, j: PreferenceKey, k: PreferenceKey)
    ensures TogglePreference(TogglePreference(p, j), k) == TogglePreference(TogglePreference(p, k), j)
  {
    var a := TogglePreference(TogglePreference(p, j), k);
    var b := TogglePreference(TogglePreference(p, k), j);
    assert Preference(a, DarkMode) == Preference(b, DarkMode);
    assert Preference(a, CompactView) == Preference(b, CompactView);
    assert Preference(a, AutoSave) == Preference(b, AutoSave);
  }

  datatype Notifications = Notifications(clientActivity: bool, taxDeadlines: bool,
                                         documentUpdates: bool, systemNotifications: bool)
  datatype NotificationKey = ClientActivity | TaxDeadlines | DocumentUpdates | SystemNotifications

  function Notification(n: Notifications, k: NotificationKey): bool
  {
    match k
    case ClientActivity => n.clientActivity
    case TaxDeadlines => n.taxDeadlines
    case DocumentUpdates => n.documentUpdates
    case SystemNotifications => n.systemNotifications
  }

  /** `{ ...notifications, [setting]: !notifications[setting] }`. */
  function ToggleNotification(n: Notifications, k: NotificationKey): (r: Notifications)
    ensures Notification(r, k) == !Notification(n, k)
    ensures forall j :: j != k ==> Notification(r, j) == Notification(n, j)
  {
    match k
    case ClientActivity => n.(clientActivity := !n.clientActivity)
    case TaxDeadlines => n.(taxDeadlines := !n.taxDeadlines)
    case DocumentUpdates => n.(documentUpdates := !n.documentUpdates)
    case SystemNotifications => n.(systemNotifications := !n.systemNotifications)
  }

  /** Flipping the same notification switch twice restores the record. */
  lemma ToggleNotificationTwice(n: Notifications, k: NotificationKey)
    ensures ToggleNotification(ToggleNotification(n, k), k) == n
  {
    var r := ToggleNotification(ToggleNotification(n, k), k);
    assert Notification(r, ClientActivity) == Notification(n, ClientActivity);
    assert Notification(r, TaxDeadlines) == Notification(n, TaxDeadlines);
    assert Notification(r, DocumentUpdates) == Notification(n, DocumentUpdates);
    assert Notification(r, SystemNotifications) == Notification(n, SystemNotifications);
  }

  /** The three ways "Update Password" can end, each with its toast. */
  datatype PasswordOutcome = Mismatch | CurrentRequired | Updated

  function OutcomeToast(o: PasswordOutcome): (toast: string)
    ensures o == Updated <==> toast == "Password updated successfully"
  {
    match o
    case Mismatch => "New passwords do not match"
    case CurrentRequired => "Current password is required"
    case Updated => "Password updated successfully"
  }

  /** Each outcome has a toast of its own. */
  lemma OutcomeToastInjective(o1: PasswordOutcome, o2: PasswordOutcome)
    ensures OutcomeToast(o1) == OutcomeToast(o2) ==> o1 == o2
  {
  }

  /** The checks of `updatePassword`, in their order: the two new
      passwords must agree, then the current one must be non-empty. */
  function CheckPassword(f: FormData): (o: PasswordOutcome)
    ensures o == Mismatch <==> f.newPassword != f.confirmPassword
    ensures o == CurrentRequired <==> f.newPassword == f.confirmPassword && f.currentPassword == ""
    ensures o == Updated <==> f.newPassword == f.confirmPassword && f.currentPassword != ""
  {
    if f.newPassword != f.confirmPassword then Mismatch
    else if f.currentPassword == "" then CurrentRequired
    else Updated
  }

  /** A mismatch is reported even when the current password is also empty. */
  lemma MismatchCheckedFirst(f: FormData)
    requires f.currentPassword == "" && f.newPassword != f.confirmPassword
    ensures CheckPassword(f) == Mismatch && OutcomeToast(CheckPassword(f)) == "New passwords do not match"
  {
  }

  /** No length or strength rule: any agreeing pair of new passwords, even
      empty ones, is accepted once a current password is given. */
  lemma AnyAgreeingPasswordAccepted(f: FormData)
    requires f.currentPassword != "" && f.newPassword == f.confirmPassword
    ensures CheckPassword(f) == Updated
  {
  }

  /** The reset after a successful update: the three password fields empty. */
  function ClearPasswords(f: FormData): (r: FormData)
    ensures forall k :: k in {CurrentPassword, NewPassword, ConfirmPassword} ==> Field(r, k) == ""
    ensures forall k :: k !in {CurrentPassword, NewPassword, ConfirmPassword} ==> Field(r, k) == Field(f, k)
  {
    f.(currentPassword := "", newPassword := "", confirmPassword := "")
  }

  /** A cleared form fails the "current password" check if submitted again. */
  lemma ClearedFormNeedsCurrent(f: FormData)
    ensures CheckPassword(ClearPasswords(f)) == CurrentRequired
  {
  }

  class SettingsPage {
    var formData: FormData
    var preferences: Preferences
    var notifications: Notifications

    /** Mounting the page for the signed-in user (or none): name and email
        come from the user, falling back to "". */
    constructor (user: Option<Auth.User>)
      ensures formData == FormData(if user.Some? then user.value.name else "",
                                   if user.Some? then user.value.email else "",
                                   "CMR Associates", "+1 (555) 123-4567", "", "", "")
      ensures preferences == Preferences(true, false, true)
      ensures notifications == Notifications(true, true, true, true)
    {
      formData := FormData(if user.Some? then user.value.name else "",
                           if user.Some? then user.value.email else "",
                           "CMR Associates", "+1 (555) 123-4567", "", "", "");
      preferences := Preferences(true, false, true);
      notifications := Notifications(true, true, true, true);
    }

    /** `handleInputChange`: the input whose id is `k` now holds `v`. */
    method HandleInputChange(k: FormField, v: string)
      modifies this
      ensures formData == WithField(old(formData), k, v)
      ensures preferences == old(preferences) && notifications == old(notifications)
    {
      formData := WithField(formData, k, v);
    }

    /** `handleToggleChange`. */
    method HandleToggleChange(k: PreferenceKey)
      modifies this
      ensures preferences == TogglePreference(old(preferences), k)
      ensures formData == old(formData) && notifications == old(notifications)
    {
      preferences := TogglePreference(preferences, k);
    }

    /** `handleNotificationChange`. */
    method HandleNotificationChange(k: NotificationKey)
      modifies this
      ensures notifications == ToggleNotification(old(notifications), k)
      ensures formData == old(formData) && preferences == old(preferences)
    {
      notifications := ToggleNotification(notifications, k);
    }

    /** `updatePassword`: report the first failed check and change nothing,
        or clear the three password fields. */
    method UpdatePassword() returns (outcome: PasswordOutcome)
      modifies this
      ensures outcome == CheckPassword(old(formData))
      ensures formData == if outcome == Updated then ClearPasswords(old(formData)) else old(formData)
      ensures preferences == old(preferences) && notifications == old(notifications)
    {
      if formData.newPassword != formData.confirmPassword {
        return Mismatch;
      }
      if formData.currentPassword == "" {
        return CurrentRequired;
      }
      formData := formData.(currentPassword := "", newPassword := "", confirmPassword := "");
      outcome := Updated;
    }
  }

  /** Filling the three password inputs and pressing "Update Password":
      the outcome depends only on what was typed, a success clears the
      passwords and keeps the profile, and a failure keeps what was typed. */
  method ChangePassword(user: Option<Auth.User>, current: string, newPassword: string, confirm: string)
    returns (outcome: PasswordOutcome, form: FormData)
    ensures outcome == Mismatch <==> newPassword != confirm
    ensures outcome == Updated <==> newPassword == confirm && current != ""
    ensures form.name == (if user.Some? then user.value.name else "")
    ensures form.company == "CMR Associates" && form.phone == "+1 (555) 123-4567"
    ensures outcome == Updated ==> form.currentPassword == "" && form.newPassword == "" && form.confirmPassword == ""
    ensures outcome != Updated ==>
      form.currentPassword == current && form.newPassword == newPassword && form.confirmPassword == confirm
  {
    var page := new SettingsPage(user);
    page.HandleInputChange(CurrentPassword, current);
    page.HandleInputChange(NewPassword, newPassword);
    page.HandleInputChange(ConfirmPassword, confirm);
    outcome := page.UpdatePassword();
    form := page.formData;
  }

  /** Flipping dark mode twice on a fresh page restores the defaults and
      touches no notification switch. */
  method DarkModeTwice() returns (once: bool, twice: Preferences, alerts: Notifications)
    ensures !once && twice == Preferences(true, false, true)
    ensures alerts == Notifications(true, true, true, true)
  {
    var page := new SettingsPage(None);
    page.HandleToggleChange(DarkMode);
    once := page.preferences.darkMode;
    page.HandleToggleChange(DarkMode);
    twice := page.preferences;
    alerts := page.notifications;
  }
}
