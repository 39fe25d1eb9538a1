/** The app-wide notification banner state: a message and a visibility flag
    that the Firebase callbacks set and the banner's timer clears. */
module NotificationBanner {

  class NotificationState {
    var message: string
    var isVisible: bool

    /** The banner is on screen only while it is visible AND has text. */
    predicate Shown()
      reads this
    {
      isVisible && message != []
    }

    /** Starts with no message and hidden. */
    constructor ()
      ensures message == [] && !isVisible
      ensures !Shown()
    {
      message := [];
      isVisible := false;
    }

    /** Replaces the message and raises the flag; the banner then shows
        exactly when the new message is non-empty. */
    method UpdateNotificationMessage(s: string)
      modifies this
      ensures message == s && isVisible
      ensures Shown() <==> s != []
    {
      message := s;
      isVisible := true;
    }

    /** Lowers the flag and keeps the last message. */
    method ClearNotification()
      modifies this
      ensures message == old(message) && !isVisible
      ensures !Shown()
    {
      isVisible := false;
    }
  }

  /** A message arrives and the banner later hides it: the text survives the
      clear, so showing the same text again needs only the flag. */
  method ShowThenHide(state: NotificationState, s: string)
    modifies state
    ensures state.message == s && !state.isVisible
    ensures !state.Shown()
  {
    state.UpdateNotificationMessage(s);
    state.ClearNotification();
  }
}
