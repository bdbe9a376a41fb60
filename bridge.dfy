/** The plugin object: the foreground activity and BiometricManager it holds,
    the one prompt it keeps for cancellation, and the operations that read
    or write them. */
module Bridge {
  import opened Platform
  import opened Messages
  import opened Request

  /** A BiometricPrompt: created for an activity, shown once with a
      configuration, and possibly cancelled afterwards. */
  class Prompt {
    const host: Activity
    var shownWith: Option<PromptInfo>
    var cancelled: bool

    constructor (host: Activity)
      ensures this.host == host && shownWith == None && !cancelled
    {
      this.host := host;
      shownWith := None;
      cancelled := false;
    }

    /** `prompt.authenticate(promptInfo)`. */
    method Authenticate(info: PromptInfo)
      modifies this
      ensures shownWith == Some(info) && cancelled == old(cancelled)
    {
      shownWith := Some(info);
    }

    /** `prompt.cancelAuthentication()`. */
    method CancelAuthentication()
      modifies this
      ensures cancelled && shownWith == old(shownWith)
    {
      cancelled := true;
    }
  }

  /** What `authenticate` sends back on the channel right away: a channel
      error, an outcome map, or nothing until the prompt's callback fires. */
  datatype AuthReply =
    | ChannelError(code: string, message: string)
    | Delivered(outcome: Outcome)
    | AwaitingCallback

  const NoActivityError: AuthReply :=
    ChannelError("NO_ACTIVITY", "Plugin requires a foreground activity")

  class Plugin {
    var activity: Option<Activity>
    var manager: Option<Availability>
    var currentPrompt: Prompt?

    /** The prompt the plugin holds has been shown, with a configuration
        that keeps device credential and the negative button apart. */
    ghost predicate Valid()
      reads this, currentPrompt
    {
      currentPrompt != null ==>
        currentPrompt.shownWith.Some? &&
        CredentialExcludesNegativeButton(currentPrompt.shownWith.value)
    }

    constructor ()
      ensures Valid()
      ensures activity == None && manager.None? && currentPrompt == null
    {
      activity := None;
      manager := None;
      currentPrompt := null;
    }

    /** onAttachedToEngine: the manager is obtained from the context. */
    method AttachToEngine(available: Availability)
      modifies this`manager
      ensures manager.Some? && manager.value == available
    {
      manager := Some(available);
    }

    /** onDetachedFromEngine: the manager is dropped. */
    method DetachFromEngine()
      modifies this`manager
      ensures manager.None?
    {
      manager := None;
    }

    /** onAttachedToActivity: `host` is None when the activity is not a
        FragmentActivity (the `as?` cast yields null). */
    method AttachToActivity(host: Option<Activity>)
      modifies this`activity
      ensures activity == host
    {
      activity := host;
    }

    /** onReattachedToActivityForConfigChanges: the same assignment. */
    method ReattachToActivity(host: Option<Activity>)
      modifies this`activity
      ensures activity == host
    {
      AttachToActivity(host);
    }

    /** onDetachedFromActivityForConfigChanges: the activity is dropped and
        the prompt kept. */
    method DetachFromActivityForConfigChanges()
      modifies this`activity
      ensures activity == None
    {
      activity := None;
    }

    /** onDetachedFromActivity: both the activity and the prompt are dropped
        (the prompt is not cancelled). */
    method DetachFromActivity()
      requires Valid()
      modifies this`activity, this`currentPrompt
      ensures Valid()
      ensures activity == None && currentPrompt == null
    {
      activity := None;
      currentPrompt := null;
    }

    /** handleAuthenticate. Without an activity: the NO_ACTIVITY channel
        error and no change. Otherwise the request is read with its
        defaults and the authenticators chosen; if canAuthenticate does not
        succeed for them, the BIOMETRIC_UNAVAILABLE outcome is delivered and
        no prompt is created; if it succeeds, a new prompt is created on the
        activity, shown with the built configuration, and becomes the
        current prompt, replacing any earlier one without cancelling it. */
    method Authenticate(args: AuthArgs) returns (reply: AuthReply)
      requires Valid()
      modifies this`currentPrompt
      ensures Valid()
      ensures activity.None? ==> reply == NoActivityError && currentPrompt == old(currentPrompt)
      ensures activity.Some? ==>
        var o := ApplyDefaults(args);
        var authenticators := SelectAuthenticators(o.allowDeviceCredential, o.biometricStrength);
        var status := Query(manager, authenticators);
        if !Succeeds(status) then
          reply == Delivered(UnavailableOutcome(status)) && currentPrompt == old(currentPrompt)
        else
          && reply == AwaitingCallback
          && currentPrompt != null && fresh(currentPrompt)
          && currentPrompt.host == activity.value
          && currentPrompt.shownWith.Some?
          && Configures(currentPrompt.shownWith.value, o, authenticators)
          && !currentPrompt.cancelled
      ensures old(currentPrompt) != null ==> unchanged(old(currentPrompt))
    {
      if activity.None? {
        return NoActivityError;
      }
      var o := ApplyDefaults(args);
      var authenticators := SelectAuthenticators(o.allowDeviceCredential, o.biometricStrength);
      var status := Query(manager, authenticators);
      if !Succeeds(status) {
        return Delivered(UnavailableOutcome(status));
      }
      var info := BuildPromptInfo(o, authenticators);
      var prompt := new Prompt(activity.value);
      prompt.Authenticate(info);
      currentPrompt := prompt;
      reply := AwaitingCallback;
    }

    /** handleCancelAuthentication: cancels the current prompt, if any, and
        forgets it; with no prompt this is a successful no-op. Returns the
        prompt that was cancelled. */
    method CancelAuthentication() returns (cancelledPrompt: Prompt?)
      requires Valid()
      modifies this`currentPrompt, currentPrompt
      ensures Valid()
      ensures currentPrompt == null
      ensures cancelledPrompt == old(currentPrompt)
      ensures cancelledPrompt != null ==>
        cancelledPrompt.cancelled && cancelledPrompt.shownWith == old(cancelledPrompt.shownWith)
    {
      cancelledPrompt := currentPrompt;
      if currentPrompt != null {
        currentPrompt.CancelAuthentication();
      }
      currentPrompt := null;
    }
  }
}
