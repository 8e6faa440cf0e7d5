/** The renderer bridge of src/preload/preload.js: the allow-list of IPC
    channels, and the `invoke` and `on` wrappers that consult it. */
module IpcAllowList {
  import opened Values

  /** `ALLOWED_IPC_CHANNELS.SEND`: what the renderer may invoke. */
  const SendChannels: seq<string> :=
    ["config:save", "config:load", "file:upload", "log:debug", "log:error", "log:info",
     "window:minimize", "window:maximize", "window:close", "change-software", "udp:change-port",
     "update-lda-config", "get-lda-config", "get-app-info"]

  /** `ALLOWED_IPC_CHANNELS.RECEIVE`: what the renderer may listen to. */
  const ReceiveChannels: seq<string> :=
    ["config:loaded", "file:upload:progress", "file:upload:complete", "file:upload:error",
     "udp-message", "udp-error", "udp-started", "lda-status", "lda-error"]

  /** `ALLOWED_IPC_CHANNELS[type]`: the list of a direction, `None` for `undefined`. */
  function Allowed(direction: string): (r: Option<seq<string>>)
    ensures r.Some? <==> direction == "SEND" || direction == "RECEIVE"
  {
    if direction == "SEND" then Some(SendChannels)
    else if direction == "RECEIVE" then Some(ReceiveChannels)
    else None
  }

  /** `isValidChannel(type, channel)`, its falsy results all read as `false`. */
  predicate IsValidChannel(direction: string, channel: string) {
    Allowed(direction).Some? && channel in Allowed(direction).value
  }

  /** A channel is valid exactly when the direction is one of the two lists and the channel is in it. */
  lemma ValidChannels(direction: string, channel: string)
    ensures IsValidChannel(direction, channel) <==>
              (direction == "SEND" && channel in SendChannels)
              || (direction == "RECEIVE" && channel in ReceiveChannels)
  {
  }

  /** No channel is in both lists: what can be received cannot be invoked. */
  lemma DirectionsDisjoint(channel: string)
    ensures !(IsValidChannel("SEND", channel) && IsValidChannel("RECEIVE", channel))
    ensures IsValidChannel("RECEIVE", "udp-message") && !IsValidChannel("SEND", "udp-message")
  {
  }

  /** The main process's own handlers are out of reach of the generic `invoke`. */
  lemma MainHandlersNotInvocable()
    ensures !IsValidChannel("SEND", "save-config") && !IsValidChannel("SEND", "open-external")
    ensures !IsValidChannel("SEND", "load-config")
  {
  }

  /** A listener the bridge registered. */
  datatype Subscription = Subscription(channel: string, callback: Callback)

  /** An IPC call the bridge made. */
  datatype Call = Call(channel: string, args: seq<Value>)

  /** The bridge's effect on `ipcRenderer`: the calls it made and the listeners it registered. */
  class Bridge {
    var calls: seq<Call>
    var subscriptions: seq<Subscription>

    constructor ()
      ensures calls == [] && subscriptions == []
    {
      calls := [];
      subscriptions := [];
    }

    /** `invoke(channel, ...args)`: forwards on a send channel, and otherwise
        rejects with `Invalid channel: <channel>` without any IPC. */
    method Invoke(channel: string, args: seq<Value>) returns (rejection: Option<string>)
      modifies this`calls
      ensures rejection.None? <==> IsValidChannel("SEND", channel)
      ensures rejection.Some? ==> rejection.value == "Invalid channel: " + channel
      ensures calls == old(calls) + (if rejection.None? then [Call(channel, args)] else [])
    {
      if IsValidChannel("SEND", channel) {
        calls := calls + [Call(channel, args)];
        rejection := None;
      } else {
        rejection := Some("Invalid channel: " + channel);
      }
    }

    /** `on(channel, callback)`: registers on a receive channel, and otherwise
        registers nothing (the unsubscriber it returns then does nothing). */
    method On(channel: string, callback: Callback) returns (subscribed: bool)
      modifies this`subscriptions
      ensures subscribed <==> IsValidChannel("RECEIVE", channel)
      ensures subscriptions == old(subscriptions) + (if subscribed then [Subscription(channel, callback)] else [])
    {
      subscribed := IsValidChannel("RECEIVE", channel);
      if subscribed {
        subscriptions := subscriptions + [Subscription(channel, callback)];
      }
    }

    /** `onLdaStatus(callback)` and `onLdaError(callback)`: they check that the
        callback is a function, not the allow-list. */
    method OnLda(channel: string, callback: Callback) returns (subscribed: bool)
      requires channel == "lda-status" || channel == "lda-error"
      modifies this`subscriptions
      ensures subscribed <==> callback.Function?
      ensures subscriptions == old(subscriptions) + (if subscribed then [Subscription(channel, callback)] else [])
    {
      subscribed := callback.Function?;
      if subscribed {
        subscriptions := subscriptions + [Subscription(channel, callback)];
      }
    }
  }
}
