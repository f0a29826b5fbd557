/**
 The publisher's atomic sections as methods on heap objects: those that run with
 the publisher's mutex held, and two that do not, the atomic increment of the tag
 counter and the close of a failed batch slot's own channel.  Any interleaving of
 publish calls, routers and resets is some sequence of these calls.  The
 preconditions of `ResultChan.Close` and `ResultChan.Send` are Go's own rules for
 not panicking and not blocking; the monitor invariant `Valid` discharges them for
 every section under the mutex.
 */
module PublisherMonitor {
  import opened ConfirmCore

  class ResultChan {
    ghost const id: nat
    ghost const tag: nat
    var open: bool
    var buf: seq<bool>

    constructor (ghost id: nat, ghost tag: nat)
      ensures this.id == id && this.tag == tag && open && buf == []
    {
      this.id, this.tag := id, tag;
      open, buf := true, [];
    }

    method Close()
      requires open
      modifies `open
      ensures !open
    {
      open := false;
    }

    method Send(v: bool)
      requires open && |buf| < CAPACITY
      modifies `buf
      ensures buf == old(buf) + [v]
    {
      buf := buf + [v];
    }
  }

  class Publisher {
    var channelID: nat
    var deliveryTag: nat
    var pending: map<nat, ResultChan>
    ghost var made: map<nat, ResultChan>  // every result channel made so far, by name
    ghost var chans: set<ResultChan>      // the same channels as a footprint

    ghost predicate Tracked()
      reads this, chans
    {
      && (forall i <- made :: made[i] in chans && made[i].id == i)
      && (forall t <- pending :: pending[t].id in made && made[pending[t].id] == pending[t])
    }

    ghost function View(): Core
      requires Tracked()
      reads this, chans
    {
      Core(channelID, deliveryTag,
           map t | t in pending :: pending[t].id,
           map i | i in made :: Chan(made[i].open, made[i].buf, made[i].tag),
           NoFault)
    }

    ghost predicate Valid()
      reads this, chans
    {
      Tracked() && PendingClean(View())
    }

    constructor (channel: nat)
      ensures Valid()
      ensures View() == Core(channel, 0, map[], map[], NoFault)
    {
      channelID, deliveryTag, pending := channel, 0, map[];
      made, chans := map[], {};
    }

    /** An atomic add, outside the mutex. */
    method Increment() returns (tag: nat)
      requires Valid()
      modifies `deliveryTag
      ensures Valid()
      ensures tag == old(deliveryTag) + 1
      ensures View() == old(View()).(deliveryTag := tag)
    {
      deliveryTag := deliveryTag + 1;
      tag := deliveryTag;
    }

    method RegisterCall(tag: nat, ghost id: nat) returns (ch: ResultChan)
      requires Valid() && id !in made
      modifies `pending, `made, `chans
      ensures Valid() && fresh(ch) && made == old(made)[id := ch]
      ensures View() == Register(old(View()), tag, id)
    {
      ghost var before := View();
      RegisterKeepsClean(before, tag, id);
      ch := new ResultChan(id, tag);
      assert View() == before;
      Adopt(ch);
      assert View() == before.(chans := before.chans[id := Chan(true, [], tag)]);
      Enter(tag, ch);
    }

    /** Takes a new channel into the bookkeeping. */
    ghost method Adopt(ch: ResultChan)
      requires Valid() && ch.id !in made
      modifies `made, `chans
      ensures Valid() && made == old(made)[ch.id := ch]
      ensures View() == old(View()).(chans := old(View()).chans[ch.id := Chan(ch.open, ch.buf, ch.tag)])
    {
      ghost var before := View();
      made, chans := made[ch.id := ch], chans + {ch};
      assert Tracked();
      assert View().pending == before.pending;
      assert View().chans == before.chans[ch.id := Chan(ch.open, ch.buf, ch.tag)];
    }

    method Enter(tag: nat, ch: ResultChan)
      requires Valid() && ch.id in made && made[ch.id] == ch && ch.open && ch.buf == [] && ch.tag == tag
      modifies `pending
      ensures Valid()
      ensures View() == old(View()).(pending := old(View()).pending[tag := ch.id])
    {
      ghost var before := View();
      pending := pending[tag := ch];
      assert Tracked();
      assert View().pending == before.pending[tag := ch.id];
    }

    method Cleanup(tag: nat)
      requires Valid()
      modifies `pending
      ensures Valid() && tag !in pending
      ensures forall t <- pending :: pending[t].tag != tag
      ensures View() == Forget(old(View()), tag)
    {
      ghost var before := View();
      pending := pending - {tag};
      assert View().pending == Forget(before, tag).pending;
      ForgetKeepsClean(before, tag);
      forall t <- pending
        ensures pending[t].tag == t
      {
        assert View().chans[View().pending[t]].tag == t;
      }
    }

    /**
     A batch slot whose send failed has deleted its entry and now, without the mutex,
     closes its own channel.  Go panics if somebody has closed it meanwhile.
     */
    method CloseOwn(ch: ResultChan) returns (fault: Fault)
      requires Valid() && ch.id in made && made[ch.id] == ch && forall t <- pending :: pending[t].tag != ch.tag
      modifies ch`open
      ensures Valid()
      ensures View().(fault := fault) == CloseChan(old(View()), ch.id)
    {
      ghost var before := View();
      if !ch.open {
        return DoubleClose;
      }
      ch.Close();
      fault := NoFault;
      assert Tracked();
      assert View().pending == before.pending;
      assert View().chans == before.chans[ch.id := before.chans[ch.id].(open := false)];
    }

    /** The waiting channel gets the verdict and is closed; it is still in the map. */
    method FillAndClose(tag: nat, ack: bool)
      requires Valid() && tag in pending
      modifies pending[tag]
      ensures Tracked()
      ensures View() == old(View()).(chans := old(View()).chans[pending[tag].id := Chan(false, [ack], tag)])
    {
      ghost var before := View();
      var ch := pending[tag];
      assert before.pending[tag] == ch.id && before.chans[ch.id] == Chan(true, [], tag);
      assert ch.buf == [] && ch.tag == tag;
      ch.Send(ack);
      ch.Close();
      assert ch.buf == [ack];
      assert View().pending == before.pending;
      assert View().chans == before.chans[ch.id := Chan(false, [ack], tag)];
    }

    method Route(tag: nat, ack: bool)
      requires Valid()
      modifies `pending, chans
      ensures Valid() && made == old(made) && chans == old(chans)
      ensures View() == RouteConfirm(old(View()), tag, ack)
    {
      ghost var before := View();
      RouteEffect(before, tag, ack);
      if tag in pending {
        FillAndClose(tag, ack);
        pending := pending - {tag};
        assert View().pending == before.pending - {tag};
      } else {
        assert before.pending - {tag} == before.pending;
      }
    }

    /** Names and channels agree: a made channel is pending by name iff it is pending by reference. */
    lemma PendingByName(k: Core)
      requires Tracked() && k == View()
      ensures forall i <- made :: i in k.pending.Values <==> made[i] in pending.Values
    {
      forall i <- made
        ensures i in k.pending.Values <==> made[i] in pending.Values
      {
        if i in k.pending.Values {
          var t :| t in k.pending && k.pending[t] == i;
          assert pending[t] == made[i];
        }
        if made[i] in pending.Values {
          var t :| t in pending && pending[t] == made[i];
          assert k.pending[t] == i;
        }
      }
    }

    /** Closes the channels still in the map, one by one. */
    method CloseEach()
      requires Valid()
      modifies chans
      ensures forall t <- pending :: !pending[t].open
      ensures forall i <- made :: made[i].buf == old(made[i].buf)
      ensures forall i <- made | made[i] !in pending.Values :: made[i].open == old(made[i].open)
    {
      ghost var k := View();
      assert forall t <- pending :: k.pending[t] == pending[t].id && k.chans[pending[t].id] == Chan(true, [], t);
      assert forall t <- pending :: pending[t].tag == t;
      var rest := pending.Keys;
      while rest != {}
        invariant rest <= pending.Keys
        invariant forall t <- rest :: pending[t].open
        invariant forall t <- pending.Keys - rest :: !pending[t].open
        invariant forall i <- made :: made[i].buf == old(made[i].buf)
        invariant forall i <- made | made[i] !in pending.Values :: made[i].open == old(made[i].open)
      {
        var t :| t in rest;
        pending[t].Close();
        rest := rest - {t};
      }
    }

    /** The router's sweep when its confirm channel closes; an epoch reset runs the same loop. */
    method Sweep()
      requires Valid()
      modifies `pending, chans
      ensures Valid() && made == old(made) && chans == old(chans)
      ensures View() == CloseAll(old(View()))
    {
      ghost var before := View();
      PendingByName(before);
      CloseAllEffect(before);
      CloseEach();
      forall i <- made
        ensures Chan(made[i].open, made[i].buf, made[i].tag) == CloseAll(before).chans[i]
      {
        assert made[i] in pending.Values ==> exists t :: t in pending && pending[t] == made[i];
      }
      pending := map[];
      assert View().chans == CloseAll(before).chans;
    }

    method RestartTags(cur: nat)
      requires Valid()
      modifies `deliveryTag, `channelID
      ensures Valid()
      ensures View() == old(View()).(channelID := cur, deliveryTag := 0)
    {
      ghost var before := View();
      deliveryTag, channelID := 0, cur;
      assert View() == before.(channelID := cur, deliveryTag := 0);
    }

    /** The locked section of `ensureConfirmsSetup`. */
    method EnsureEpoch(cur: nat) returns (needsReset: bool)
      requires Valid()
      modifies `pending, `deliveryTag, `channelID, chans
      ensures Valid() && made == old(made) && chans == old(chans)
      ensures needsReset <==> cur != old(channelID)
      ensures View() == ResetTo(old(View()), cur)
    {
      needsReset := cur != channelID;
      if needsReset {
        Sweep();
        RestartTags(cur);
      }
    }
  }
}
