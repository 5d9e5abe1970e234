/**
 * The notification centre: an error message, a success message and the handle of one
 * auto-hide timer. The browser's timer queue is modelled by `pending` (handle to delay);
 * a timer going off is the explicit step `Fire`, with no clock.
 */
module Notifications {
  import opened Wrappers

  const DefaultHideDuration := 3000
  const DefaultSuccessMessage := "Operation completed successfully"
  const DefaultErrorPrefix := "Operation failed: "
  const UnknownError := "Unknown error"
  const DefaultItemName := "item"
  const TracksLoadedMessage := "Tracks loaded successfully!"
  const TracksLoadFailedPrefix := "Failed to load tracks: "

  /** `toUpperCase` of one character, for the ASCII letters. */
  function Upper(c: char): char {
    if 'a' <= c <= 'z' then (c as int - 32) as char else c
  }

  /** `str.charAt(0).toUpperCase() + str.slice(1)`. */
  function Capitalize(s: string): (r: string)
    ensures |r| == |s|
    ensures forall i :: 0 < i < |s| ==> r[i] == s[i]
    ensures |s| > 0 && 'a' <= s[0] <= 'z' ==> 'A' <= r[0] <= 'Z' && r[0] as int + 32 == s[0] as int
    ensures |s| > 0 && !('a' <= s[0] <= 'z') ==> r[0] == s[0]
  {
    if s == [] then [] else [Upper(s[0])] + s[1..]
  }

  /** Capitalising twice is capitalising once. */
  lemma CapitalizeIdempotent(s: string)
    ensures Capitalize(Capitalize(s)) == Capitalize(s)
  {
  }

  /** The success text of an operation handler: "<Item> <operation>d successfully!". */
  function SuccessText(operation: string, itemName: string): (r: string)
    ensures |r| == |itemName| + |operation| + 16
    ensures r[..|itemName|] == Capitalize(itemName)
    ensures r[|itemName|] == ' ' && r[|itemName| + 1..|itemName| + 1 + |operation|] == operation
    ensures r[|r| - 15..] == "d successfully!"
  {
    Capitalize(itemName) + " " + operation + "d successfully!"
  }

  /** A thrown value: its `message` property ("" when missing) and its string form. */
  datatype Thrown = Thrown(message: string, asText: string)

  /** `error.message || error`. */
  function Detail(e: Thrown): (r: string)
    ensures e.message != "" ==> r == e.message
    ensures e.message == "" ==> r == e.asText
  {
    if e.message != "" then e.message else e.asText
  }

  /** The failure text of an operation handler: "Failed to <operation> <item>: <detail>". */
  function FailureText(operation: string, itemName: string, detail: string): (r: string)
    ensures |r| == 13 + |operation| + |itemName| + |detail|
    ensures r[..10] == "Failed to "
    ensures r[10..10 + |operation|] == operation
    ensures r[10 + |operation|] == ' '
    ensures r[11 + |operation|..11 + |operation| + |itemName|] == itemName
    ensures r[11 + |operation| + |itemName|..13 + |operation| + |itemName|] == ": "
    ensures r[|r| - |detail|..] == detail
  {
    "Failed to " + operation + " " + itemName + ": " + detail
  }

  /** The text `handleApiResponse` shows for a failed call: the prefix, then the message or "Unknown error". */
  function ApiFailureText(errorPrefix: string, message: string): (r: string)
    ensures |r| >= |errorPrefix| && r[..|errorPrefix|] == errorPrefix
    ensures message != "" ==> r[|errorPrefix|..] == message
    ensures message == "" ==> r[|errorPrefix|..] == UnknownError
  {
    errorPrefix + (if message != "" then message else UnknownError)
  }

  class NotificationCenter {
    var error: string
    var success: string
    /** The `autoHideTimeout` ref: the handle of the last timer set, or null. */
    var autoHideTimeout: Option<nat>
    /** The timers still to go off: handle to delay in milliseconds. */
    var pending: map<nat, int>
    var nextHandle: nat

    /**
     * The only timer that can still go off is the one the ref holds, and handles are
     * positive, so a held handle is truthy.
     */
    ghost predicate Valid()
      reads this
    {
      && (forall h :: h in pending ==> autoHideTimeout == Some(h))
      && (autoHideTimeout.Some? ==> autoHideTimeout.value > 0)
      && nextHandle > 0
    }

    predicate HasError()
      reads this
    {
      error != ""
    }

    predicate HasSuccess()
      reads this
    {
      success != ""
    }

    predicate HasNotifications()
      reads this
    {
      HasError() || HasSuccess()
    }

    /** At most one auto-hide timer is ever waiting to go off. */
    lemma AtMostOnePending()
      requires Valid()
      ensures |pending| <= 1
    {
      if autoHideTimeout.Some? && autoHideTimeout.value in pending {
        assert pending.Keys == {autoHideTimeout.value};
        assert |pending| == |pending.Keys|;
      } else {
        assert pending.Keys == {};
        assert pending == map[];
      }
    }

    constructor ()
      ensures Valid() && error == "" && success == "" && autoHideTimeout == None && pending == map[]
    {
      error, success, autoHideTimeout, pending, nextHandle := "", "", None, map[], 1;
    }

    /** The state `showSuccess(message, clearOthers, duration)` leaves behind. */
    twostate predicate SuccessShown(message: string, clearOthers: bool, duration: int)
      reads this
    {
      && error == (if clearOthers then "" else old(error))
      && success == message
      && (duration > 0 && message != "" ==>
            autoHideTimeout == Some(old(nextHandle)) && pending == map[old(nextHandle) := duration])
      && (duration > 0 && message == "" ==> autoHideTimeout == None && pending == map[])
      && (duration <= 0 ==> autoHideTimeout == old(autoHideTimeout) && pending == old(pending))
    }

    /** The state `showError(message, clearOthers)` leaves behind. */
    twostate predicate ErrorShown(message: string, clearOthers: bool)
      reads this
    {
      && error == message
      && success == (if clearOthers then "" else old(success))
      && autoHideTimeout == None && pending == map[]
    }

    /** Cancels the timer the ref holds, if any, and nulls the ref. */
    method ClearAutoHideTimeout()
      requires Valid()
      modifies this
      ensures Valid() && autoHideTimeout == None && pending == map[]
      ensures error == old(error) && success == old(success) && nextHandle == old(nextHandle)
    {
      if autoHideTimeout.Some? {
        pending := pending - {autoHideTimeout.value};
        autoHideTimeout := None;
      }
      assert pending.Keys == {};
    }

    method ClearAll()
      requires Valid()
      modifies this
      ensures Valid() && !HasNotifications() && autoHideTimeout == None && pending == map[]
      ensures nextHandle == old(nextHandle)
    {
      error := "";
      success := "";
      ClearAutoHideTimeout();
    }

    method ClearError()
      modifies this
      ensures error == "" && success == old(success)
      ensures autoHideTimeout == old(autoHideTimeout) && pending == old(pending) && nextHandle == old(nextHandle)
    {
      error := "";
    }

    method ClearSuccess()
      modifies this
      ensures success == "" && error == old(error)
      ensures autoHideTimeout == old(autoHideTimeout) && pending == old(pending) && nextHandle == old(nextHandle)
    {
      success := "";
    }

    /** Cancels the current timer and, when a success message is shown, sets a new one. */
    method SetupAutoHide(duration: int)
      requires Valid()
      modifies this
      ensures Valid() && error == old(error) && success == old(success)
      ensures success != "" ==>
        autoHideTimeout == Some(old(nextHandle)) && pending == map[old(nextHandle) := duration]
      ensures success == "" ==> autoHideTimeout == None && pending == map[]
    {
      ClearAutoHideTimeout();
      if success != "" {
        var handle := nextHandle;
        nextHandle := nextHandle + 1;
        pending := pending[handle := duration];
        autoHideTimeout := Some(handle);
      }
    }

    method ShowError(message: string, clearOthers: bool)
      requires Valid()
      modifies this
      ensures Valid() && ErrorShown(message, clearOthers)
    {
      if clearOthers {
        ClearSuccess();
      }
      error := message;
      ClearAutoHideTimeout();
    }

    method ShowSuccess(message: string, clearOthers: bool, autoHideDuration: int)
      requires Valid()
      modifies this
      ensures Valid() && SuccessShown(message, clearOthers, autoHideDuration)
    {
      if clearOthers {
        ClearError();
      }
      success := message;
      if autoHideDuration > 0 {
        SetupAutoHide(autoHideDuration);
      }
    }

    /**
     * Dispatches on the kind; `clearOthers` and `autoHide` are the options object's
     * entries (`None`: not given). Any other kind changes nothing.
     */
    method ShowNotification(kind: string, message: string, clearOthers: Option<bool>, autoHide: Option<int>)
      requires Valid()
      modifies this
      ensures Valid()
      ensures kind == "success" ==>
        SuccessShown(message, clearOthers.GetOr(true), autoHide.GetOr(DefaultHideDuration))
      ensures kind == "error" ==> ErrorShown(message, clearOthers.GetOr(true))
      ensures kind != "success" && kind != "error" ==> unchanged(this)
    {
      var clear := clearOthers.GetOr(true);
      if kind == "success" {
        ShowSuccess(message, clear, autoHide.GetOr(DefaultHideDuration));
      } else if kind == "error" {
        ShowError(message, clear);
      }
    }

    /**
     * Clears everything, then reports the settled call: its success message, or the
     * error prefix and the failure's message. The call's own outcome is passed on.
     */
    method HandleApiResponse<T>(call: Result<T>, successMessage: Option<string>, errorPrefix: Option<string>)
      returns (r: Result<T>)
      requires Valid()
      modifies this
      ensures Valid() && r == call
      ensures call.Success? ==>
        var message := successMessage.GetOr(DefaultSuccessMessage);
        && error == "" && success == message
        && (message != "" ==>
              autoHideTimeout == Some(old(nextHandle)) && pending == map[old(nextHandle) := DefaultHideDuration])
        && (message == "" ==> autoHideTimeout == None && pending == map[])
      ensures call.Failure? ==>
        && error == ApiFailureText(errorPrefix.GetOr(DefaultErrorPrefix), call.error)
        && success == "" && autoHideTimeout == None && pending == map[]
    {
      ClearAll();
      if call.Success? {
        ShowSuccess(successMessage.GetOr(DefaultSuccessMessage), true, DefaultHideDuration);
      } else {
        ShowError(ApiFailureText(errorPrefix.GetOr(DefaultErrorPrefix), call.error), true);
      }
      r := call;
    }

    /** The `success` handler made by `createOperationHandler(operation)`. */
    method OperationSucceeded(operation: string, itemName: Option<string>)
      requires Valid()
      modifies this
      ensures Valid()
      ensures SuccessShown(SuccessText(operation, itemName.GetOr(DefaultItemName)), true, DefaultHideDuration)
    {
      ShowSuccess(SuccessText(operation, itemName.GetOr(DefaultItemName)), true, DefaultHideDuration);
    }

    /** The `error` handler made by `createOperationHandler(operation)`. */
    method OperationFailed(operation: string, thrown: Thrown, itemName: Option<string>)
      requires Valid()
      modifies this
      ensures Valid()
      ensures ErrorShown(FailureText(operation, itemName.GetOr(DefaultItemName), Detail(thrown)), true)
    {
      ShowError(FailureText(operation, itemName.GetOr(DefaultItemName), Detail(thrown)), true);
    }

    /** The `fetch.success` track handler. */
    method TracksLoaded()
      requires Valid()
      modifies this
      ensures Valid() && SuccessShown(TracksLoadedMessage, true, DefaultHideDuration)
    {
      ShowSuccess(TracksLoadedMessage, true, DefaultHideDuration);
    }

    /** The `fetch.error` track handler. */
    method TracksLoadFailed(thrown: Thrown)
      requires Valid()
      modifies this
      ensures Valid() && ErrorShown(TracksLoadFailedPrefix + Detail(thrown), true)
    {
      ShowError(TracksLoadFailedPrefix + Detail(thrown), true);
    }

    /**
     * The pending timer goes off: its callback clears the success message. The ref keeps
     * the spent handle until the next cancellation.
     */
    method Fire()
      requires Valid()
      modifies this
      ensures Valid()
      ensures old(pending) != map[] ==> success == "" && pending == map[]
      ensures old(pending) == map[] ==> success == old(success) && pending == old(pending)
      ensures error == old(error) && autoHideTimeout == old(autoHideTimeout) && nextHandle == old(nextHandle)
    {
      if autoHideTimeout.Some? && autoHideTimeout.value in pending {
        pending := pending - {autoHideTimeout.value};
        ClearSuccess();
        assert pending.Keys == {};
      } else {
        assert pending.Keys == {};
      }
    }
  }

  /**
   * Two success messages with auto-hide before the first timer goes off: one timer is
   * waiting, with the second delay, and when it goes off it clears the second message.
   */
  method SecondSuccessReplacesTimer(first: string, second: string, firstDelay: int, secondDelay: int)
    returns (waiting: nat, delay: int, shownBefore: string, shownAfter: string)
    requires firstDelay > 0 && secondDelay > 0 && second != ""
    ensures waiting == 1 && delay == secondDelay
    ensures shownBefore == second && shownAfter == ""
  {
    var center := new NotificationCenter();
    center.ShowSuccess(first, true, firstDelay);
    center.ShowSuccess(second, true, secondDelay);
    waiting := |center.pending|;
    var handle := center.autoHideTimeout.value;
    delay := center.pending[handle];
    shownBefore := center.success;
    center.Fire();
    shownAfter := center.success;
  }

  /**
   * A success shown with auto-hide disabled keeps an earlier timer waiting, and that
   * timer clears the new message when it goes off.
   */
  method DisabledAutoHideKeepsEarlierTimer(first: string, second: string, delay: int)
    returns (shownBefore: string, shownAfter: string)
    requires delay > 0 && first != ""
    ensures shownBefore == second && shownAfter == ""
  {
    var center := new NotificationCenter();
    center.ShowSuccess(first, true, delay);
    center.ShowSuccess(second, true, 0);
    shownBefore := center.success;
    center.Fire();
    shownAfter := center.success;
  }

  /** An error cancels a waiting auto-hide timer: going off afterwards changes nothing. */
  method ErrorCancelsTimer(message: string, problem: string, delay: int)
    returns (errorShown: string, successShown: string, waiting: nat)
    requires delay > 0 && message != ""
    ensures errorShown == problem && successShown == "" && waiting == 0
  {
    var center := new NotificationCenter();
    center.ShowSuccess(message, true, delay);
    center.ShowError(problem, true);
    center.Fire();
    errorShown := center.error;
    successShown := center.success;
    waiting := |center.pending|;
  }
}
