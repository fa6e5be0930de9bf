/** The `App` component of client/components/App.jsx as an object whose
    handlers update its fields in place, one after the other. Each method is
    proved to perform exactly the transition SessionModel gives it. */
module App {
  import opened Events
  import opened Captions
  import SessionModel

  class Session {
    var isSessionActive: bool
    /** The event log, newest first. */
    var events: seq<Event>
    /** Whether `dataChannel` is non-null. */
    var hasChannel: bool
    /** Whether `peerConnection.current` is non-null. */
    var hasPeerConnection: bool
    /** Payloads handed to `dataChannel.send`, oldest first. */
    var sent: seq<Event>

    /** The fields as one value of the pure model. */
    function Snapshot(): SessionModel.State
      reads this
    {
      SessionModel.State(isSessionActive, events, hasChannel, hasPeerConnection, sent)
    }

    /** The component's initial state. */
    constructor ()
      ensures Snapshot() == SessionModel.Initial()
    {
      isSessionActive, events, hasChannel, hasPeerConnection, sent := false, [], false, false, [];
    }

    /** `sendClientEvent(message)`; `freshId` stands for `crypto.randomUUID()`
        and `now` for the local time string. */
    method SendClientEvent(message: Event, freshId: NonEmptyString, now: NonEmptyString)
      modifies this
      ensures Snapshot() == SessionModel.Dispatch(old(Snapshot()), message, freshId, now)
      ensures !old(hasChannel) ==> unchanged(this)
      ensures old(hasChannel) ==> |events| == |old(events)| + 1 && events[1..] == old(events)
    {
      if hasChannel {
        var m := message;
        if !Present(m.eventId) {
          m := m.(eventId := Some(freshId));
        }
        sent := sent + [m];
        if !Present(m.timestamp) {
          m := m.(timestamp := Some(now));
        }
        events := [m] + events;
      }
      // without a channel the message is only reported on the console
    }

    /** `sendTextMessage(text)`: two separate dispatches. */
    method SendTextMessage(text: string, itemId: NonEmptyString, itemTime: NonEmptyString,
                           responseId: NonEmptyString, responseTime: NonEmptyString)
      modifies this
      ensures Snapshot() == SessionModel.SendText(old(Snapshot()), text, itemId, itemTime, responseId, responseTime)
    {
      SendClientEvent(ConversationItem(UserRole, text), itemId, itemTime);
      SendClientEvent(ResponseCreateEvent(), responseId, responseTime);
    }

    /** `updateSystemPrompt(latestLogs)`. */
    method UpdateSystemPrompt(latestLogs: seq<Event>, freshId: NonEmptyString, now: NonEmptyString)
      modifies this
      ensures Snapshot() == SessionModel.UpdateSystemPrompt(old(Snapshot()), latestLogs, freshId, now)
    {
      if |latestLogs| < 2 {
        return;
      }
      var context := Context(latestLogs);
      SendClientEvent(ConversationItem(SystemRole, PromptText(context)), freshId, now);
    }

    /** The channel's `message` listener; `arrival` is the time string read
        when the event arrives. The listener exists only on a channel. */
    method OnMessage(e: Event, arrival: NonEmptyString, freshId: NonEmptyString, now: NonEmptyString)
      requires hasChannel
      modifies this
      ensures Snapshot() == SessionModel.OnMessage(old(Snapshot()), e, arrival, freshId, now)
    {
      var ev := e;
      if !Present(ev.timestamp) {
        ev := ev.(timestamp := Some(arrival));
      }
      events := [ev] + events;
      if ev.kind == LogUpdate {
        UpdateSystemPrompt(events, freshId, now);
      }
    }

    /** The channel's `open` listener. */
    method OnOpen()
      requires hasChannel
      modifies this
      ensures Snapshot() == SessionModel.OnOpen(old(Snapshot()))
      ensures isSessionActive && events == []
    {
      isSessionActive := true;
      events := [];
    }

    /** `stopSession()`. `ok` is false when the call throws because
        `peerConnection.current` is null; the fields are then left as they were. */
    method StopSession() returns (ok: bool)
      modifies this
      ensures ok == old(hasPeerConnection)
      ensures ok ==> SessionModel.Stop(old(Snapshot())) == Some(Snapshot())
      ensures ok ==> !isSessionActive && !hasChannel && !hasPeerConnection && events == old(events)
      ensures !ok ==> Snapshot() == old(Snapshot())
    {
      if !hasPeerConnection {
        return false;
      }
      isSessionActive := false;
      hasChannel := false;
      hasPeerConnection := false;
      ok := true;
    }

    /** `setDataChannel(dc)` during `startSession`. */
    method AttachChannel()
      modifies this
      ensures Snapshot() == SessionModel.AttachChannel(old(Snapshot()))
    {
      hasChannel := true;
    }

    /** `peerConnection.current = pc` at the end of `startSession`. */
    method AttachPeerConnection()
      modifies this
      ensures Snapshot() == SessionModel.AttachPeer(old(Snapshot()))
    {
      hasPeerConnection := true;
    }
  }
}
