/**
 * The toast notifications of the application: the four builders that fill a
 * toast's configuration from a title, a description and options, the table
 * of predefined messages, and `handleActionResult`, which turns the result
 * of an action into at most one toast. Showing a toast is modelled as
 * appending its configuration to the service's log of emitted toasts.
 */
module Notifications {
  import opened Wrappers
  import opened JsStrings

  datatype Category = Success | Info | Warning | Error

  /**
   * The configuration handed to the toaster. `cancel.label` is always set by
   * the builders; the optional action button is never set and is not modelled.
   */
  datatype Toast = Toast(
    category: Category,
    title: string,
    description: Option<string>,
    duration: int,
    cancelLabel: string)

  /**
   * The options the builders read. The `category`, `showCancel`,
   * `actionLabel` and `actionHandler` options are never read and are not
   * modelled.
   */
  datatype ToastOptions = ToastOptions(duration: Option<int>, cancelLabel: Option<string>)

  /** One entry of the predefined message table. */
  datatype Message = Message(title: string, description: string)

  // ---------------------------------------------------------------------------
  // JavaScript `||` on the two kinds of value the builders combine

  /** `x || fallback` for a possibly missing number: 0 and a missing value are falsy. */
  function OrNumber(x: Option<int>, fallback: int): (r: int)
    ensures x.Some? && x.value != 0 ==> r == x.value
    ensures x.None? || x.value == 0 ==> r == fallback
  {
    if x.Some? && x.value != 0 then x.value else fallback
  }

  /** `x || fallback` for a possibly missing string: "" and a missing value are falsy. */
  function OrText(x: Option<string>, fallback: string): (r: string)
    ensures x.Some? && x.value != "" ==> r == x.value
    ensures x.None? || x.value == "" ==> r == fallback
  {
    if x.Some? && x.value != "" then x.value else fallback
  }

  /** A truthy optional string: present and not empty. */
  predicate Truthy(x: Option<string>)
  {
    x.Some? && x.value != ""
  }

  /** `options?.duration`. */
  function DurationOption(options: Option<ToastOptions>): Option<int>
  {
    if options.Some? then options.value.duration else None
  }

  /** `options?.cancelLabel`. */
  function CancelLabelOption(options: Option<ToastOptions>): Option<string>
  {
    if options.Some? then options.value.cancelLabel else None
  }

  // ---------------------------------------------------------------------------
  // Builders

  /** The duration `success`, `error`, `warning` and `info` fall back to. */
  function DefaultDuration(category: Category): (d: int)
    ensures d > 0
  {
    match category
    case Success => 4000
    case Info => 4000
    case Warning => 5000
    case Error => 6000
  }

  /**
   * `success`, `error`, `warning` and `info`: the toast of that category with
   * the title and description as given, the given duration unless it is
   * missing or zero, and the given cancel label unless it is missing or empty.
   */
  function Build(category: Category, title: string, description: Option<string>, options: Option<ToastOptions>): (t: Toast)
    ensures t.category == category && t.title == title && t.description == description
    ensures t.duration != 0 && t.cancelLabel != ""
    ensures t.duration == DefaultDuration(category) || Some(t.duration) == DurationOption(options)
    ensures t.cancelLabel == "Dismiss" || Some(t.cancelLabel) == CancelLabelOption(options)
    ensures options.None? ==> t.duration == DefaultDuration(category) && t.cancelLabel == "Dismiss"
    ensures t.duration == OrNumber(DurationOption(options), DefaultDuration(category))
    ensures t.cancelLabel == OrText(CancelLabelOption(options), "Dismiss")
  {
    Toast(category, title, description,
      OrNumber(DurationOption(options), DefaultDuration(category)),
      OrText(CancelLabelOption(options), "Dismiss"))
  }

  /** The keys of the predefined message table. */
  datatype MessageKey =
    LoginSuccess
    | LoginError
    | LoginNetworkError
    | LogoutSuccess
    | LogoutError
    | RegisterSuccess
    | RegisterError
    | EmailVerificationNeeded
    | PasswordResetSent
    | PasswordResetError
    | PasswordUpdated
    | PasswordUpdateError
    | ProfileUpdated
    | ProfileUpdateError
    | Success
    | Error
    | NetworkError
    | Unauthorized
    | Forbidden
    | ValidationError
    | RateLimited

  /** The key a caller names, if the table has it; any other name has no entry. */
  function ParseKey(name: string): Option<MessageKey>
  {
    match name
    case "LOGIN_SUCCESS" => Some(MessageKey.LoginSuccess)
    case "LOGIN_ERROR" => Some(MessageKey.LoginError)
    case "LOGIN_NETWORK_ERROR" => Some(MessageKey.LoginNetworkError)
    case "LOGOUT_SUCCESS" => Some(MessageKey.LogoutSuccess)
    case "LOGOUT_ERROR" => Some(MessageKey.LogoutError)
    case "REGISTER_SUCCESS" => Some(MessageKey.RegisterSuccess)
    case "REGISTER_ERROR" => Some(MessageKey.RegisterError)
    case "EMAIL_VERIFICATION_NEEDED" => Some(MessageKey.EmailVerificationNeeded)
    case "PASSWORD_RESET_SENT" => Some(MessageKey.PasswordResetSent)
    case "PASSWORD_RESET_ERROR" => Some(MessageKey.PasswordResetError)
    case "PASSWORD_UPDATED" => Some(MessageKey.PasswordUpdated)
    case "PASSWORD_UPDATE_ERROR" => Some(MessageKey.PasswordUpdateError)
    case "PROFILE_UPDATED" => Some(MessageKey.ProfileUpdated)
    case "PROFILE_UPDATE_ERROR" => Some(MessageKey.ProfileUpdateError)
    case "SUCCESS" => Some(MessageKey.Success)
    case "ERROR" => Some(MessageKey.Error)
    case "NETWORK_ERROR" => Some(MessageKey.NetworkError)
    case "UNAUTHORIZED" => Some(MessageKey.Unauthorized)
    case "FORBIDDEN" => Some(MessageKey.Forbidden)
    case "VALIDATION_ERROR" => Some(MessageKey.ValidationError)
    case "RATE_LIMITED" => Some(MessageKey.RateLimited)
    case _ => None
  }

  /** The title and description the table holds under each key. */
  function MessageFor(key: MessageKey): Message
  {
    match key
    case LoginSuccess => Message("Welcome back!", "You have been successfully signed in.")
    case LoginError => Message("Sign in failed", "Please check your credentials and try again.")
    case LoginNetworkError => Message("Connection error", "Unable to connect. Please check your internet connection.")
    case LogoutSuccess => Message("Signed out", "You have been successfully signed out.")
    case LogoutError => Message("Sign out completed", "You have been signed out of your account.")
    case RegisterSuccess => Message("Account created!", "Welcome to the platform. You can now access your dashboard.")
    case RegisterError => Message("Registration failed", "Unable to create your account. Please try again.")
    case EmailVerificationNeeded => Message("Verify your email", "Please check your email and click the verification link.")
    case PasswordResetSent => Message("Reset link sent", "Check your email for password reset instructions.")
    case PasswordResetError => Message("Reset failed", "Unable to send reset email. Please try again.")
    case PasswordUpdated => Message("Password updated", "Your password has been successfully changed.")
    case PasswordUpdateError => Message("Update failed", "Unable to update password. Please try again.")
    case ProfileUpdated => Message("Profile saved", "Your profile information has been updated successfully.")
    case ProfileUpdateError => Message("Save failed", "Unable to save profile changes. Please try again.")
    case Success => Message("Success", "Operation completed successfully.")
    case Error => Message("Error", "Something went wrong. Please try again.")
    case NetworkError => Message("Connection error", "Please check your internet connection and try again.")
    case Unauthorized => Message("Access denied", "You need to sign in to access this feature.")
    case Forbidden => Message("Permission denied", "You don't have permission to perform this action.")
    case ValidationError => Message("Invalid input", "Please check your information and try again.")
    case RateLimited => Message("Too many attempts", "Please wait a moment before trying again.")
  }

  /** The duration `showMessage` falls back to: 6000 for errors, 4000 otherwise. */
  function MessageDuration(category: Category): (d: int)
    ensures d == 6000 <==> category == Category.Error
    ensures d == 4000 <==> category != Category.Error
  {
    if category == Category.Error then 6000 else 4000
  }

  /**
   * `showMessage` for a key of the table: the entry's title and description
   * in the given category (info when none is given), with the given duration
   * unless it is missing or zero and the given cancel label unless it is
   * missing or empty.
   */
  function MessageToast(key: MessageKey, category: Option<Category>, options: Option<ToastOptions>): (t: Toast)
    ensures t.category == (if category.Some? then category.value else Category.Info)
    ensures t.title == MessageFor(key).title && t.description == Some(MessageFor(key).description)
    ensures t.duration != 0 && t.cancelLabel != ""
    ensures t.duration == MessageDuration(t.category) || Some(t.duration) == DurationOption(options)
    ensures t.cancelLabel == "Dismiss" || Some(t.cancelLabel) == CancelLabelOption(options)
    ensures options.None? ==> t.duration == MessageDuration(t.category) && t.cancelLabel == "Dismiss"
    ensures t.duration == OrNumber(DurationOption(options), MessageDuration(t.category))
    ensures t.cancelLabel == OrText(CancelLabelOption(options), "Dismiss")
  {
    var m := MessageFor(key);
    var c := if category.Some? then category.value else Category.Info;
    Toast(c, m.title, Some(m.description),
      OrNumber(DurationOption(options), MessageDuration(c)),
      OrText(CancelLabelOption(options), "Dismiss"))
  }

  /** `showMessage` for a key given as a name: nothing when the table has no such key. */
  function NamedToast(name: string, category: Option<Category>, options: Option<ToastOptions>): (t: Option<Toast>)
    ensures t.None? <==> ParseKey(name).None?
    ensures t.Some? ==> t.value == MessageToast(ParseKey(name).value, category, options)
  {
    match ParseKey(name)
    case None => None
    case Some(key) => Some(MessageToast(key, category, options))
  }

  /**
   * A predefined message shows for as long as the builder of its category
   * would show a toast by default, except for warnings: 4000 against 5000.
   */
  lemma MessageDurationAgreesExceptWarning(key: MessageKey, category: Category, title: string, description: Option<string>)
    ensures MessageToast(key, Some(category), None).duration == Build(category, title, description, None).duration
            <==> category != Category.Warning
  {
  }

  // ---------------------------------------------------------------------------
  // handleActionResult

  /** The `error` of an action result: its code and message, either possibly missing. */
  datatype ActionError = ActionError(code: Option<string>, message: Option<string>)

  /** The `data` of an action result: whether `success` is truthy, and its message. */
  datatype ActionData = ActionData(success: bool, message: Option<string>)

  /** An action result; a missing `error` or `data` is `None`. */
  datatype ActionResult = ActionResult(error: Option<ActionError>, data: Option<ActionData>)

  /** `error.message?.toLowerCase().includes(word)`. */
  predicate Mentions(e: ActionError, word: string)
  {
    e.message.Some? && Includes(ToLowerCase(e.message.value), word)
  }

  /** The result reports success: no error and a truthy `data.success`. */
  predicate Succeeded(r: ActionResult)
  {
    r.error.None? && r.data.Some? && r.data.value.success
  }

  /** An error the code does not classify and whose message mentions neither word. */
  predicate Unclassified(e: ActionError)
  {
    e.code != Some("UNAUTHORIZED") && e.code != Some("BAD_REQUEST") &&
    !Mentions(e, "network") && !Mentions(e, "rate")
  }

  /** An error that is shown as rate limiting. */
  predicate IsRateLimited(e: ActionError)
  {
    e.code != Some("UNAUTHORIZED") && e.code != Some("BAD_REQUEST") &&
    !Mentions(e, "network") && Mentions(e, "rate")
  }

  /**
   * The toast `handleActionResult` shows, if any. Errors go, in this order,
   * by the UNAUTHORIZED code, the BAD_REQUEST code, a message mentioning
   * "network", a message mentioning "rate", the caller's error key and the
   * generic failure; a successful result shows the caller's success key, the
   * result's own message or the generic success.
   */
  function Reaction(result: Option<ActionResult>, successKey: Option<string>, errorKey: Option<string>): (t: Option<Toast>)
    ensures t.Some? ==> result.Some?
    ensures t.Some? ==> t.value.cancelLabel == "Dismiss" && t.value.duration == MessageDuration(t.value.category)
    ensures t.Some? ==> t.value.category != Category.Info
  {
    if result.None? then None
    else
      match result.value.error
      case Some(e) =>
        if e.code == Some("UNAUTHORIZED") then Some(MessageToast(MessageKey.Unauthorized, Some(Category.Error), None))
        else if e.code == Some("BAD_REQUEST") then
          Some(Build(Category.Error, "Invalid request", Some(OrText(e.message, "Please check your input and try again.")), None))
        else if Mentions(e, "network") then Some(MessageToast(MessageKey.NetworkError, Some(Category.Error), None))
        else if Mentions(e, "rate") then Some(MessageToast(MessageKey.RateLimited, Some(Category.Warning), None))
        else if Truthy(errorKey) then NamedToast(errorKey.value, Some(Category.Error), None)
        else Some(Build(Category.Error, "Operation failed", Some(OrText(e.message, "Something went wrong. Please try again.")), None))
      case None =>
        var data := result.value.data;
        if data.Some? && data.value.success then
          if Truthy(successKey) then NamedToast(successKey.value, Some(Category.Success), None)
          else if Truthy(data.value.message) then Some(Build(Category.Success, "Success", data.value.message, None))
          else Some(MessageToast(MessageKey.Success, Some(Category.Success), None))
        else None
  }

  /** A warning is shown exactly for an error read as rate limiting. */
  lemma WarningIffRateLimited(result: Option<ActionResult>, successKey: Option<string>, errorKey: Option<string>)
    ensures var t := Reaction(result, successKey, errorKey);
            (t.Some? && t.value.category == Category.Warning)
            <==> (result.Some? && result.value.error.Some? && IsRateLimited(result.value.error.value))
  {
  }

  /** An error result never shows a success toast, and a success result never shows an error. */
  lemma CategoryFollowsOutcome(result: Option<ActionResult>, successKey: Option<string>, errorKey: Option<string>)
    ensures var t := Reaction(result, successKey, errorKey);
            t.Some? ==> (t.value.category == Category.Success <==> Succeeded(result.value))
  {
  }

  /**
   * Nothing is shown exactly when there is no result, when the result is
   * neither an error nor a success, or when the key the caller chose is not
   * in the message table.
   */
  lemma SilentIff(result: Option<ActionResult>, successKey: Option<string>, errorKey: Option<string>)
    ensures Reaction(result, successKey, errorKey).None? <==>
            || result.None?
            || (result.value.error.None? && !Succeeded(result.value))
            || (result.value.error.Some? && Unclassified(result.value.error.value) &&
                Truthy(errorKey) && ParseKey(errorKey.value).None?)
            || (Succeeded(result.value) && Truthy(successKey) && ParseKey(successKey.value).None?)
  {
  }

  /**
   * The error code is looked at before the message: an UNAUTHORIZED or
   * BAD_REQUEST error is shown as such whatever its message says, and a
   * message mentioning the network is not read as rate limiting.
   */
  lemma ErrorPrecedence(e: ActionError, data: Option<ActionData>, successKey: Option<string>, errorKey: Option<string>)
    ensures var t := Reaction(Some(ActionResult(Some(e), data)), successKey, errorKey);
            && (e.code == Some("UNAUTHORIZED") ==> t == Some(MessageToast(MessageKey.Unauthorized, Some(Category.Error), None)))
            && (e.code == Some("BAD_REQUEST") ==> t.Some? && t.value.title == "Invalid request")
            && (e.code != Some("UNAUTHORIZED") && e.code != Some("BAD_REQUEST") && Mentions(e, "network") ==>
                  t == Some(MessageToast(MessageKey.NetworkError, Some(Category.Error), None)))
  {
  }

  /**
   * The two message-based error steps and the BAD_REQUEST description: a
   * BAD_REQUEST error shows its own message, falling back only when it is
   * missing or empty, and an error read as rate limiting shows the
   * RATE_LIMITED message as a warning.
   */
  lemma ErrorToasts(e: ActionError, data: Option<ActionData>, successKey: Option<string>, errorKey: Option<string>)
    ensures var t := Reaction(Some(ActionResult(Some(e), data)), successKey, errorKey);
            && (e.code == Some("BAD_REQUEST") ==>
                  t == Some(Build(Category.Error, "Invalid request", Some(OrText(e.message, "Please check your input and try again.")), None)))
            && (IsRateLimited(e) ==> t == Some(MessageToast(MessageKey.RateLimited, Some(Category.Warning), None)))
  {
  }

  /** An unclassified error with a truthy error key shows that key's message as an error. */
  lemma ErrorKeyToast(e: ActionError, data: Option<ActionData>, successKey: Option<string>, errorKey: Option<string>)
    requires Unclassified(e) && Truthy(errorKey)
    ensures Reaction(Some(ActionResult(Some(e), data)), successKey, errorKey)
         == NamedToast(errorKey.value, Some(Category.Error), None)
  {
  }

  /**
   * The success branch prefers the caller's success key, then the result's
   * own message, then the generic SUCCESS message.
   */
  lemma SuccessToasts(r: ActionResult, successKey: Option<string>, errorKey: Option<string>)
    requires Succeeded(r)
    ensures var t := Reaction(Some(r), successKey, errorKey);
            && (Truthy(successKey) ==> t == NamedToast(successKey.value, Some(Category.Success), None))
            && (!Truthy(successKey) && Truthy(r.data.value.message) ==>
                  t == Some(Build(Category.Success, "Success", r.data.value.message, None)))
            && (!Truthy(successKey) && !Truthy(r.data.value.message) ==>
                  t == Some(MessageToast(MessageKey.Success, Some(Category.Success), None)))
  {
  }

  /** A failure whose message mentions the network in capitals is still shown as a connection error. */
  lemma NetworkIgnoresCase(errorKey: Option<string>)
    ensures Reaction(Some(ActionResult(Some(ActionError(None, Some("NETWORK"))), None)), None, errorKey)
         == Some(MessageToast(MessageKey.NetworkError, Some(Category.Error), None))
  {
    assert ToLowerCase("NETWORK") == "network";
    assert OccursAt(ToLowerCase("NETWORK"), "network", 0);
  }

  /** The generic failure keeps the error's own message, and falls back only when it is missing or empty. */
  lemma GenericFailureKeepsMessage(e: ActionError, data: Option<ActionData>, successKey: Option<string>)
    requires Unclassified(e)
    ensures var t := Reaction(Some(ActionResult(Some(e), data)), successKey, None);
            && t.Some? && t.value.category == Category.Error && t.value.title == "Operation failed"
            && (Truthy(e.message) ==> t.value.description == e.message)
  {
  }

  /** What `show` receives for an optional toast: one toast or none. */
  function Emit(t: Option<Toast>): (s: seq<Toast>)
    ensures |s| <= 1
    ensures s == [] <==> t.None?
    ensures t.Some? ==> s == [t.value]
  {
    if t.Some? then [t.value] else []
  }

  /**
   * The notification service. Every toast it shows is appended to
   * `emitted`; the document, the toaster element and its initialisation
   * are not modelled.
   */
  class NotificationService {
    var emitted: seq<Toast>

    constructor()
      ensures emitted == []
    {
      emitted := [];
    }

    /** `show`: dispatches the configuration as it is. */
    method Show(config: Toast)
      modifies this
      ensures emitted == old(emitted) + [config]
    {
      emitted := emitted + [config];
    }

    method Success(title: string, description: Option<string>, options: Option<ToastOptions>)
      modifies this
      ensures emitted == old(emitted) + [Build(Category.Success, title, description, options)]
    {
      Show(Toast(Category.Success, title, description,
        OrNumber(DurationOption(options), 4000), OrText(CancelLabelOption(options), "Dismiss")));
    }

    method Error(title: string, description: Option<string>, options: Option<ToastOptions>)
      modifies this
      ensures emitted == old(emitted) + [Build(Category.Error, title, description, options)]
    {
      Show(Toast(Category.Error, title, description,
        OrNumber(DurationOption(options), 6000), OrText(CancelLabelOption(options), "Dismiss")));
    }

    method Warning(title: string, description: Option<string>, options: Option<ToastOptions>)
      modifies this
      ensures emitted == old(emitted) + [Build(Category.Warning, title, description, options)]
    {
      Show(Toast(Category.Warning, title, description,
        OrNumber(DurationOption(options), 5000), OrText(CancelLabelOption(options), "Dismiss")));
    }

    method Info(title: string, description: Option<string>, options: Option<ToastOptions>)
      modifies this
      ensures emitted == old(emitted) + [Build(Category.Info, title, description, options)]
    {
      Show(Toast(Category.Info, title, description,
        OrNumber(DurationOption(options), 4000), OrText(CancelLabelOption(options), "Dismiss")));
    }

    /** `showMessage` for a key of the table. */
    method ShowKey(key: MessageKey, category: Option<Category>, options: Option<ToastOptions>)
      modifies this
      ensures emitted == old(emitted) + [MessageToast(key, category, options)]
    {
      var message := MessageFor(key);
      var c := if category.Some? then category.value else Category.Info;
      Show(Toast(c, message.title, Some(message.description),
        OrNumber(DurationOption(options), if c == Category.Error then 6000 else 4000),
        OrText(CancelLabelOption(options), "Dismiss")));
    }

    /** `showMessage` for a name: an unknown one is reported on the console and shows nothing. */
    method ShowMessage(name: string, category: Option<Category>, options: Option<ToastOptions>)
      modifies this
      ensures emitted == old(emitted) + Emit(NamedToast(name, category, options))
    {
      var key := ParseKey(name);
      if key.None? {
        return;
      }
      ShowKey(key.value, category, options);
    }

    /** `handleActionResult`: shows at most one toast, the one Reaction gives. */
    method HandleActionResult(result: Option<ActionResult>, successKey: Option<string>, errorKey: Option<string>)
      modifies this
      ensures emitted == old(emitted) + Emit(Reaction(result, successKey, errorKey))
      ensures |emitted| <= |old(emitted)| + 1
    {
      if result.None? {
        return;
      }
      var r := result.value;
      if r.error.Some? {
        var e := r.error.value;
        if e.code == Some("UNAUTHORIZED") {
          ShowKey(MessageKey.Unauthorized, Some(Category.Error), None);
        } else if e.code == Some("BAD_REQUEST") {
          Error("Invalid request", Some(OrText(e.message, "Please check your input and try again.")), None);
        } else if e.message.Some? && Includes(ToLowerCase(e.message.value), "network") {
          ShowKey(MessageKey.NetworkError, Some(Category.Error), None);
        } else if e.message.Some? && Includes(ToLowerCase(e.message.value), "rate") {
          ShowKey(MessageKey.RateLimited, Some(Category.Warning), None);
        } else if errorKey.Some? && errorKey.value != "" {
          ShowMessage(errorKey.value, Some(Category.Error), None);
        } else {
          Error("Operation failed", Some(OrText(e.message, "Something went wrong. Please try again.")), None);
        }
      } else if r.data.Some? && r.data.value.success {
        if successKey.Some? && successKey.value != "" {
          ShowMessage(successKey.value, Some(Category.Success), None);
        } else if r.data.value.message.Some? && r.data.value.message.value != "" {
          Success("Success", r.data.value.message, None);
        } else {
          ShowKey(MessageKey.Success, Some(Category.Success), None);
        }
      }
    }

    // `auth` helpers

    method LoginSuccess()
      modifies this
      ensures emitted == old(emitted) + [MessageToast(MessageKey.LoginSuccess, Some(Category.Success), None)]
    {
      ShowKey(MessageKey.LoginSuccess, Some(Category.Success), None);
    }

    /** `auth.loginError`: the LOGIN_ERROR title, with the given message or the table's description. */
    method LoginError(message: Option<string>)
      modifies this
      ensures emitted == old(emitted) +
                [Build(Category.Error, MessageFor(MessageKey.LoginError).title,
                   Some(OrText(message, MessageFor(MessageKey.LoginError).description)), None)]
    {
      var m := MessageFor(MessageKey.LoginError);
      Error(m.title, Some(OrText(message, m.description)), None);
    }

    method LogoutSuccess()
      modifies this
      ensures emitted == old(emitted) + [MessageToast(MessageKey.LogoutSuccess, Some(Category.Info), None)]
    {
      ShowKey(MessageKey.LogoutSuccess, Some(Category.Info), None);
    }

    method RegisterSuccess()
      modifies this
      ensures emitted == old(emitted) + [MessageToast(MessageKey.RegisterSuccess, Some(Category.Success), None)]
    {
      ShowKey(MessageKey.RegisterSuccess, Some(Category.Success), None);
    }

    /** `auth.registerError`: the REGISTER_ERROR title, with the given message or the table's description. */
    method RegisterError(message: Option<string>)
      modifies this
      ensures emitted == old(emitted) +
                [Build(Category.Error, MessageFor(MessageKey.RegisterError).title,
                   Some(OrText(message, MessageFor(MessageKey.RegisterError).description)), None)]
    {
      var m := MessageFor(MessageKey.RegisterError);
      Error(m.title, Some(OrText(message, m.description)), None);
    }

    method PasswordResetSent()
      modifies this
      ensures emitted == old(emitted) + [MessageToast(MessageKey.PasswordResetSent, Some(Category.Info), None)]
    {
      ShowKey(MessageKey.PasswordResetSent, Some(Category.Info), None);
    }

    method PasswordResetError()
      modifies this
      ensures emitted == old(emitted) + [MessageToast(MessageKey.PasswordResetError, Some(Category.Error), None)]
    {
      ShowKey(MessageKey.PasswordResetError, Some(Category.Error), None);
    }

    method EmailVerificationNeeded()
      modifies this
      ensures emitted == old(emitted) + [MessageToast(MessageKey.EmailVerificationNeeded, Some(Category.Warning), None)]
    {
      ShowKey(MessageKey.EmailVerificationNeeded, Some(Category.Warning), None);
    }

    // `profile` helpers

    method ProfileUpdated()
      modifies this
      ensures emitted == old(emitted) + [MessageToast(MessageKey.ProfileUpdated, Some(Category.Success), None)]
    {
      ShowKey(MessageKey.ProfileUpdated, Some(Category.Success), None);
    }

    /** `profile.updateError`: the PROFILE_UPDATE_ERROR title, with the given message or the table's description. */
    method ProfileUpdateError(message: Option<string>)
      modifies this
      ensures emitted == old(emitted) +
                [Build(Category.Error, MessageFor(MessageKey.ProfileUpdateError).title,
                   Some(OrText(message, MessageFor(MessageKey.ProfileUpdateError).description)), None)]
    {
      var m := MessageFor(MessageKey.ProfileUpdateError);
      Error(m.title, Some(OrText(message, m.description)), None);
    }
  }
}
