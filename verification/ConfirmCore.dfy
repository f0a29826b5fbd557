/**
 The part of the publisher that its mutex guards: the delivery-tag counter, the
 map from tag to waiting result channel, and the result channels themselves.

 A result channel is a Go channel of capacity one.  Closing it twice or sending
 on it after it was closed panics; sending while it is full blocks, here with
 the mutex held.  Each of these is recorded as a `Fault`, so that the absence of
 faults can be stated about whole runs.  A channel is named by the number of the
 publish call that made it.
 */
module ConfirmCore {

  datatype Chan = Chan(open: bool, buf: seq<bool>, tag: nat)  // `tag` it was registered under

  datatype Fault = NoFault | DoubleClose | SendOnClosed | BlockedHoldingLock

  datatype Core = Core(
    channelID: nat,            // AMQP channel the publisher is registered with; 0 is no channel
    deliveryTag: nat,
    pending: map<nat, nat>,    // delivery tag -> result channel
    chans: map<nat, Chan>,
    fault: Fault)

  const CAPACITY: nat := 1

  /** Every channel in `pending` is open, empty and stored under the one tag it was registered under. */
  ghost predicate PendingClean(k: Core) {
    forall t <- k.pending :: k.pending[t] in k.chans && k.chans[k.pending[t]] == Chan(true, [], t)
  }

  function Raise(k: Core, f: Fault): Core {
    if k.fault.NoFault? then k.(fault := f) else k
  }

  /** A channel that was never made counts as closed: closing or filling it would panic too. */
  function ChanOf(k: Core, id: nat): Chan {
    if id in k.chans then k.chans[id] else Chan(false, [], 0)
  }

  function CloseChan(k: Core, id: nat): Core {
    if !ChanOf(k, id).open then Raise(k, DoubleClose)
    else k.(chans := k.chans[id := ChanOf(k, id).(open := false)])
  }

  function SendChan(k: Core, id: nat, v: bool): Core {
    var ch := ChanOf(k, id);
    if !ch.open then Raise(k, SendOnClosed)
    else if |ch.buf| >= CAPACITY then Raise(k, BlockedHoldingLock)
    else k.(chans := k.chans[id := ch.(buf := ch.buf + [v])])
  }

  function Register(k: Core, tag: nat, id: nat): Core {
    k.(chans := k.chans[id := Chan(true, [], tag)], pending := k.pending[tag := id])
  }

  function Forget(k: Core, tag: nat): Core {
    k.(pending := k.pending - {tag})
  }

  /** A confirmation reaches the router: fill, close and forget the waiting channel, if there is one. */
  function RouteConfirm(k: Core, tag: nat, ack: bool): Core {
    if tag in k.pending then
      Forget(CloseChan(SendChan(k, k.pending[tag], ack), k.pending[tag]), tag)
    else k
  }

  /** Every pending channel can be closed, and is met only once, under its own tag. */
  ghost predicate CanCloseAll(k: Core) {
    forall t <- k.pending :: ChanOf(k, k.pending[t]).open && ChanOf(k, k.pending[t]).tag == t
  }

  /** Closes every pending channel and empties the map. */
  ghost function CloseAll(k: Core): Core {
    var k1 := if CanCloseAll(k) then k else Raise(k, DoubleClose);
    k1.(chans := map id | id in k.chans ::
                   if id in k.pending.Values then k.chans[id].(open := false) else k.chans[id],
        pending := map[])
  }

  /** The AMQP channel changed: drop the old epoch and restart the tags. */
  ghost function ResetTo(k: Core, cur: nat): Core {
    if cur == k.channelID then k
    else CloseAll(k).(channelID := cur, deliveryTag := 0)
  }

  lemma RegisterKeepsClean(k: Core, tag: nat, id: nat)
    requires PendingClean(k) && id !in k.chans
    ensures PendingClean(Register(k, tag, id))
  {
  }

  lemma ForgetKeepsClean(k: Core, tag: nat)
    requires PendingClean(k)
    ensures PendingClean(Forget(k, tag))
  {
  }

  lemma CloseAllEffect(k: Core)
    requires PendingClean(k)
    ensures CanCloseAll(k)
    ensures CloseAll(k).fault == k.fault
    ensures CloseAll(k).chans.Keys == k.chans.Keys
    ensures PendingClean(CloseAll(k))
    ensures forall id <- k.chans ::
              CloseAll(k).chans[id].buf == k.chans[id].buf && CloseAll(k).chans[id].tag == k.chans[id].tag
    ensures forall id <- k.chans :: CloseAll(k).chans[id].open <==> k.chans[id].open && id !in k.pending.Values
  {
  }

  lemma RouteEffect(k: Core, tag: nat, ack: bool)
    requires PendingClean(k)
    ensures var k' := RouteConfirm(k, tag, ack);
            && k'.fault == k.fault
            && k'.pending == k.pending - {tag}
            && k'.chans == (if tag in k.pending then k.chans[k.pending[tag] := Chan(false, [ack], tag)] else k.chans)
            && PendingClean(k')
  {
    if tag in k.pending {
      var id := k.pending[tag];
      var k1 := SendChan(k, id, ack);
      assert k1.chans[id] == Chan(true, [ack], tag);
      var k2 := CloseChan(k1, id);
      assert k2.chans == k.chans[id := Chan(false, [ack], tag)];
    }
  }
}
