/** The notification-settings form
    (project/src/components/notifications/NotificationSettings.tsx): its
    validators, the submit rule, the message colour, and the form state that
    the field handlers, the load effect and the save handler change. The
    backend replies are inputs. */
module NotificationSettings {
  import opened Common

  datatype Settings = Settings(
    emailEnabled: bool,
    smsEnabled: bool,
    threshold: string,
    frequency: string,
    emailAddress: string,
    phoneNumber: string)

  const DefaultSettings := Settings(true, false, "0.7", "immediate", "", "")

  // ---------------------------------------------------------------------------
  // Email: `^[^\s@]+@[^\s@]+\.[^\s@]+$`

  /** The strings the email pattern matches, read off the pattern: an '@'
      after at least one character, a '.' at least two characters after it
      and at least one before the end, and every other character outside
      `\s` and '@'. */
  ghost predicate EmailPattern(s: string) {
    exists i, j :: 0 < i && i + 1 < j < |s| - 1 && s[i] == '@' && s[j] == '.'
      && forall k :: 0 <= k < |s| && k != i ==> !IsSpace(s[k]) && s[k] != '@'
  }

  /** The characters strictly inside a string. */
  function Inner(d: string): string {
    if |d| >= 2 then d[1..|d| - 1] else []
  }

  /** isEmailValid: empty, or no whitespace, a single '@' that is not first,
      and a '.' strictly inside the part after the '@'. */
  function IsEmailValid(email: string): bool {
    || email == ""
    || (NoSpace(email) && '@' in email &&
        var i := IndexOf(email, '@');
        i >= 1 && '@' !in email[i + 1..] && '.' in Inner(email[i + 1..]))
  }

  /** The validator accepts exactly the empty string and the strings the
      pattern matches. */
  lemma EmailValidMatchesPattern(email: string)
    ensures IsEmailValid(email) <==> email == "" || EmailPattern(email)
  {
    if email != "" && IsEmailValid(email) {
      EmailValidIsPattern(email);
    }
    if email != "" && EmailPattern(email) {
      var i, j :| 0 < i && i + 1 < j < |email| - 1 && email[i] == '@' && email[j] == '.'
        && forall k :: 0 <= k < |email| && k != i ==> !IsSpace(email[k]) && email[k] != '@';
      EmailPatternIsValid(email, i, j);
    }
  }

  lemma EmailValidIsPattern(email: string)
    requires email != "" && IsEmailValid(email)
    ensures EmailPattern(email)
  {
    var i := IndexOf(email, '@');
    var d := email[i + 1..];
    var inner := Inner(d);
    var j' :| 0 <= j' < |inner| && inner[j'] == '.';
    var j := i + 2 + j';
    assert email[j] == '.';
    var before := email[..i];
    forall k | 0 <= k < |email| && k != i
      ensures !IsSpace(email[k]) && email[k] != '@'
    {
      if k < i {
        assert email[k] == before[k];
      } else {
        assert email[k] == d[k - i - 1];
      }
    }
  }

  lemma EmailPatternIsValid(email: string, i: int, j: int)
    requires 0 < i && i + 1 < j < |email| - 1 && email[i] == '@' && email[j] == '.'
    requires forall k :: 0 <= k < |email| && k != i ==> !IsSpace(email[k]) && email[k] != '@'
    ensures IsEmailValid(email)
  {
    var before := email[..i];
    assert '@' !in before by {
      forall k | 0 <= k < |before| ensures before[k] != '@' {
        assert before[k] == email[k];
      }
    }
    IndexOfFirst(email, '@', i);
    var d := email[i + 1..];
    assert '@' !in d by {
      forall k | 0 <= k < |d| ensures d[k] != '@' {
        assert d[k] == email[i + 1 + k];
      }
    }
    var inner := Inner(d);
    assert inner[j - i - 2] == '.';
  }

  lemma IndexOfFirst(s: string, c: char, i: nat)
    requires i < |s| && s[i] == c && c !in s[..i]
    ensures IndexOf(s, c) == i
  {
  }

  // ---------------------------------------------------------------------------
  // Phone: `^\+?[0-9\s\-()]{7,}$`

  predicate PhoneChar(c: char) {
    ('0' <= c <= '9') || IsSpace(c) || c == '-' || c == '(' || c == ')'
  }

  /** `[0-9\s\-()]{7,}` */
  predicate PhoneBody(t: string) {
    |t| >= 7 && forall k :: 0 <= k < |t| ==> PhoneChar(t[k])
  }

  /** The strings the phone pattern matches, read off the pattern: with or
      without a leading '+'. */
  predicate PhonePattern(s: string) {
    PhoneBody(s) || (|s| >= 1 && s[0] == '+' && PhoneBody(s[1..]))
  }

  /** isPhoneValid: empty, or an optional leading '+' and then at least seven
      digits, spaces, hyphens and parentheses. */
  function IsPhoneValid(phone: string): bool {
    || phone == ""
    || PhoneBody(if |phone| >= 1 && phone[0] == '+' then phone[1..] else phone)
  }

  /** The validator decides the pattern: the optional '+' never needs
      backtracking, since '+' is not a body character. */
  lemma PhoneValidMatchesPattern(phone: string)
    ensures IsPhoneValid(phone) <==> phone == "" || PhonePattern(phone)
  {
    if |phone| >= 1 && phone[0] == '+' {
      assert !PhoneChar(phone[0]);
    }
  }

  // ---------------------------------------------------------------------------
  // Submit rule and message colour

  /** `loading || !isEmailValid || !isPhoneValid` */
  function SubmitDisabled(loading: bool, s: Settings): (disabled: bool)
    ensures !disabled <==> !loading && IsEmailValid(s.emailAddress) && IsPhoneValid(s.phoneNumber)
  {
    loading || !IsEmailValid(s.emailAddress) || !IsPhoneValid(s.phoneNumber)
  }

  /** An invalid address blocks saving even with its channel switched off. */
  lemma SubmitBlockedByDisabledChannel()
    ensures !DefaultSettings.smsEnabled
    ensures SubmitDisabled(false, DefaultSettings.(phoneNumber := "12"))
    ensures !SubmitDisabled(false, DefaultSettings)
  {
  }

  datatype MessageColor = Green | Red | Yellow

  const SavedMessage := "\U{2705} Settings saved!"
  const SaveFailedMessage := "\U{274C} Failed to save settings."
  const SaveErrorMessage := "\U{274C} Error saving settings."
  const LoadErrorMessage := "\U{26A0}\U{FE0F} Could not load settings."

  function ColorOf(message: string): (c: MessageColor)
    ensures c == Green <==> StartsWith(message, "\U{2705}")
    ensures c == Red <==> !StartsWith(message, "\U{2705}") && StartsWith(message, "\U{274C}")
  {
    if StartsWith(message, "\U{2705}") then Green
    else if StartsWith(message, "\U{274C}") then Red
    else Yellow
  }

  /** The messages the form writes itself get the intended colours. */
  lemma OwnMessagesColored()
    ensures ColorOf(SavedMessage) == Green
    ensures ColorOf(SaveFailedMessage) == Red && ColorOf(SaveErrorMessage) == Red
    ensures ColorOf(LoadErrorMessage) == Yellow
  {
    assert SavedMessage[..1] == "\U{2705}";
    assert SaveFailedMessage[..1] == "\U{274C}";
    assert SaveErrorMessage[..1] == "\U{274C}";
    assert LoadErrorMessage[0] == '\U{26A0}';
  }

  // ---------------------------------------------------------------------------
  // Form state

  /** The JSON reply to the save request, or a failure before one arrived. */
  datatype SaveReply = SaveAnswered(success: bool, error: Option<string>) | SaveThrew

  /** The JSON reply to the load request, or a failure before one arrived. */
  datatype LoadReply = LoadAnswered(success: bool, data: Option<Settings>) | LoadThrew

  class SettingsForm {
    var settings: Settings
    var loading: bool
    var message: Option<string>

    constructor ()
      ensures settings == DefaultSettings && !loading && message == None
    {
      settings := DefaultSettings;
      loading := false;
      message := None;
    }

    method SetThreshold(value: string)
      modifies this`settings
      ensures settings == old(settings).(threshold := value)
    {
      settings := settings.(threshold := value);
    }

    method SetFrequency(value: string)
      modifies this`settings
      ensures settings == old(settings).(frequency := value)
    {
      settings := settings.(frequency := value);
    }

    method SetEmailEnabled(checked: bool)
      modifies this`settings
      ensures settings == old(settings).(emailEnabled := checked)
    {
      settings := settings.(emailEnabled := checked);
    }

    method SetEmailAddress(value: string)
      modifies this`settings
      ensures settings == old(settings).(emailAddress := value)
    {
      settings := settings.(emailAddress := value);
    }

    method SetSmsEnabled(checked: bool)
      modifies this`settings
      ensures settings == old(settings).(smsEnabled := checked)
    {
      settings := settings.(smsEnabled := checked);
    }

    method SetPhoneNumber(value: string)
      modifies this`settings
      ensures settings == old(settings).(phoneNumber := value)
    {
      settings := settings.(phoneNumber := value);
    }

    /** The load effect: saved settings replace the form's only when the reply
        succeeded with data; a failed request leaves a warning. */
    method Load(reply: LoadReply)
      modifies this`settings, this`message
      ensures reply.LoadAnswered? && reply.success && reply.data.Some? ==>
        settings == reply.data.value && message == old(message)
      ensures reply.LoadAnswered? && !(reply.success && reply.data.Some?) ==>
        settings == old(settings) && message == old(message)
      ensures reply.LoadThrew? ==>
        settings == old(settings) && message == Some(LoadErrorMessage) && ColorOf(message.value) == Yellow
    {
      OwnMessagesColored();
      match reply
      case LoadAnswered(success, data) =>
        if success && data.Some? {
          settings := data.value;
        }
      case LoadThrew =>
        message := Some(LoadErrorMessage);
    }

    /** handleSubmit: loading is on while the request is out and off after
        it, whatever the outcome; the message reports the outcome. */
    method Submit(reply: SaveReply)
      modifies this`loading, this`message
      ensures !loading
      ensures reply.SaveAnswered? && reply.success ==>
        message == Some(SavedMessage) && ColorOf(message.value) == Green
      ensures reply.SaveAnswered? && !reply.success ==>
        message == Some(if Truthy(reply.error) then reply.error.value else SaveFailedMessage)
      ensures reply.SaveThrew? ==> message == Some(SaveErrorMessage) && ColorOf(message.value) == Red
    {
      OwnMessagesColored();
      loading := true;
      message := None;
      match reply {
        case SaveAnswered(success, error) =>
          if success {
            message := Some(SavedMessage);
          } else {
            message := Some(if Truthy(error) then error.value else SaveFailedMessage);
          }
        case SaveThrew =>
          message := Some(SaveErrorMessage);
      }
      loading := false;
    }
  }
}
