/**
  The client object: the counters and maps its tasks share, and the channel objects. Every method is
  a region of code that holds the locks it needs from beginning to end, and is proved to be the
  corresponding step on the shared data.
 */
module ClientObject {
  import opened ChannelModel
  import opened ClientProtocol
  import opened Wrappers

  class ClientRegistry {
    var nextChannelId: nat
    /** The ids with an opener to wake. */
    var pendingChannelOpens: set<nat>
    var channels: map<nat, Channel>
    /** Which channels the server has opened, and which openers were woken, in order. */
    ghost var openedIds: set<nat>
    ghost var signals: seq<nat>

    /** Channels sit under their own ids, so no object is registered twice. */
    ghost predicate Valid()
      reads this, channels.Values
    {
      forall k :: k in channels ==> channels[k].id == k
    }

    ghost function View(): Registry
      reads this, channels.Values
    {
      Registry(nextChannelId, pendingChannelOpens, map k | k in channels :: channels[k].View(),
               AtRest, openedIds, signals)
    }

    constructor ()
      ensures Valid() && View() == EMPTY
    {
      nextChannelId := 1;
      pendingChannelOpens := {};
      channels := map[];
      openedIds, signals := {}, [];
    }

    /** The first region of opening a channel. */
    method AllocateId() returns (id: nat)
      requires Valid()
      modifies this`nextChannelId
      ensures Valid()
      ensures id == old(View()).next && View() == old(View()).(next := id + 1)
    {
      id := nextChannelId;
      nextChannelId := nextChannelId + 1;
    }

    /** The second region: the opener can be woken before its channel is known. */
    method StorePending(id: nat)
      requires Valid()
      modifies this`pendingChannelOpens
      ensures Valid()
      ensures View() == old(View()).(pending := old(View()).pending + {id})
    {
      pendingChannelOpens := pendingChannelOpens + {id};
    }

    /** The third region. */
    method RegisterChannel(id: nat) returns (channel: Channel)
      requires Valid()
      modifies this`channels
      ensures Valid() && fresh(channel)
      ensures View() == old(View()).(channels := old(View()).channels[id := NewChan(id)])
      ensures id in channels && channels[id] == channel
    {
      channel := new Channel(id);
      channels := channels[id := channel];
    }

    method OpenChannel(id: nat)
      requires Valid() && id in channels
      modifies channels[id]
      ensures Valid()
      ensures View() == OnChannel(old(View()), id, SetOpened)
    {
      hide ChanStep;
      assert forall k :: k in channels && k != id ==> channels[k] != channels[id];
      channels[id].ProcessStatusOpened();
      assert View().channels == OnChannel(old(View()), id, SetOpened).channels;
    }

    method DeliverTo(id: nat, message: ChannelMessage)
      requires Valid() && id in channels
      modifies channels[id]
      ensures Valid()
      ensures View() == OnChannel(old(View()), id, Deliver(message))
    {
      hide ChanStep;
      assert forall k :: k in channels && k != id ==> channels[k] != channels[id];
      channels[id].ProcessPayloadMessage(message);
      assert View().channels == OnChannel(old(View()), id, Deliver(message)).channels;
    }

    method WakeOpener(id: nat)
      requires Valid()
      modifies this`pendingChannelOpens, this`openedIds, this`signals
      ensures Valid()
      ensures View() == Signal(old(View()).(openedIds := old(View()).openedIds + {id}, routing := Signalling(id)))
    {
      openedIds := openedIds + {id};
      if id in pendingChannelOpens {
        pendingChannelOpens := pendingChannelOpens - {id};
        signals := signals + [id];
      }
    }

    /** Routing of one message, with the registry held throughout. Only the addressed channel's
        object is touched. */
    method ProcessMessage(m: Incoming)
      requires Valid()
      modifies this`pendingChannelOpens, this`openedIds, this`signals
      modifies if m.channel in channels then {channels[m.channel]} else {}
      ensures Valid()
      ensures View() == Route(old(View()), m)
    {
      hide ChanStep, View, OnChannel;
      assert View().channels.Keys == channels.Keys && View().routing == AtRest by {
        ViewKeys();
      }
      if m.channel > 0 && m.channel in channels {
        if m.message.mtype == "CHANNEL_OPENED" {
          OpenedThenPassedOn(m);
          OpenChannel(m.channel);
          DeliverTo(m.channel, m.message);
          WakeOpener(m.channel);
        } else if m.message.mtype != "ERROR" {
          RoutingOf(m.channel, Deliver(m.message));
          DeliverTo(m.channel, m.message);
        }
      }
    }

    lemma ViewKeys()
      ensures View().channels.Keys == channels.Keys && View().routing == AtRest
    {
    }

    lemma RoutingOf(id: nat, a: ChanAction)
      ensures OnChannel(View(), id, a).routing == AtRest
    {
    }

    lemma OpenedThenPassedOn(m: Incoming)
      ensures var moved := OnChannel(View(), m.channel, SetOpened);
              var told := OnChannel(moved, m.channel, Deliver(m.message));
              PassOn(ReceiveOpened(View(), m))
              == told.(openedIds := told.openedIds + {m.channel}, routing := Signalling(m.channel))
    {
      hide ChanStep;
    }

    /** The part of a reconnect that goes over the channels, in the order of a hash map. */
    method ReconnectSweep()
      requires Valid()
      modifies channels.Values
      ensures Valid()
      ensures View() == Sweep(old(View()))
    {
      hide ChanStep;
      var todo := channels.Keys;
      while todo != {}
        invariant todo <= channels.Keys
        invariant forall k :: k in todo ==> channels[k].View() == old(channels[k].View())
        invariant forall k :: k in channels && k !in todo ==>
                    channels[k].View() == SweepOne(old(channels[k].View()))
      {
        var k :| k in todo;
        assert forall j :: j in channels && j != k ==> channels[j] != channels[k];
        if channels[k].state != Closed {
          channels[k].ProcessStatusRequested();
        }
        todo := todo - {k};
      }
      assert View().channels == Sweep(old(View())).channels;
    }

    /** After authorization, and if the client is connected, the channels for which a request is sent:
        those still requested, each once, in the order of a hash map. */
    method ChannelsToRequest(connected: bool) returns (ids: seq<nat>)
      requires Valid()
      ensures forall k :: k in ids <==> connected && k in channels && channels[k].state == Requested
      ensures forall i, j :: 0 <= i < j < |ids| ==> ids[i] != ids[j]
    {
      ids := [];
      if !connected {
        return;
      }
      var todo := channels.Keys;
      while todo != {}
        invariant todo <= channels.Keys
        invariant forall k :: k in ids <==> k in channels && k !in todo && channels[k].state == Requested
        invariant forall i, j :: 0 <= i < j < |ids| ==> ids[i] != ids[j]
      {
        var k :| k in todo;
        if channels[k].state == Requested {
          assert k !in ids;
          ids := ids + [k];
        }
        todo := todo - {k};
      }
    }
  }

  /** The regions of one opener, run without interruption, are three steps of the protocol. */
  method OpenUninterrupted(client: ClientRegistry) returns (id: nat, channel: Channel)
    requires client.Valid()
    modifies client
    ensures client.Valid() && fresh(channel)
    ensures id == old(client.View()).next && channel.id == id
    ensures forall openers: seq<Opener> ::
              (Client(client.View(), openers + [Opener(id, Registered)])
               == Next(Next(Next(Client(old(client.View()), openers), Allocate), Store(|openers|)),
                       Register(|openers|)))
  {
    id := client.AllocateId();
    client.StorePending(id);
    channel := client.RegisterChannel(id);
    forall openers: seq<Opener>
      ensures Client(client.View(), openers + [Opener(id, Registered)])
           == Next(Next(Next(Client(old(client.View()), openers), Allocate), Store(|openers|)), Register(|openers|))
    {
      var a := Next(Client(old(client.View()), openers), Allocate);
      var b := Next(a, Store(|openers|));
      assert a.openers[|openers|] == Opener(id, Allocated);
      assert b.openers == openers + [Opener(id, Stored)];
    }
  }
}
