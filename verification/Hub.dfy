/** Who is listening to what in this process, indexed both ways. */
module Hub {
  import E = EventStore

  type Row = E.Row

  class EventStreamHub {
    var nextId: nat
    var subscribers: map<nat, set<string>>
    var idsByChannel: map<string, set<nat>>
    /** How often the listener for channel changes was called. */
    var changes: nat
    /** What each subscriber was sent, in order. */
    var inbox: map<nat, seq<Row>>
    ghost var published: seq<Row>

    /** The channel index is the inverse of the subscriber map, and lists no channel without a subscriber. */
    ghost predicate Valid()
      reads this
    {
      && (forall c <- idsByChannel :: idsByChannel[c] != {})
      && (forall c, id :: c in idsByChannel && id in idsByChannel[c] <==> id in subscribers && c in subscribers[id])
      && (forall id <- subscribers :: id < nextId)
      && (forall id :: id in inbox <==> 0 <= id < nextId)
    }

    predicate Holds(id: nat, channel: string)
      reads this
    {
      id in subscribers && channel in subscribers[id]
    }

    constructor ()
      ensures Valid() && subscribers == map[] && published == [] && changes == 0 && ActiveChannels() == {}
    {
      nextId, subscribers, idsByChannel, changes, inbox, published := 0, map[], map[], 0, map[], [];
    }

    function ActiveChannels(): set<string>
      reads this
    {
      idsByChannel.Keys
    }

    /** A channel is active exactly while somebody holds it. */
    lemma ActiveExactlyWhenHeld(channel: string)
      requires Valid()
      ensures channel in ActiveChannels() <==> exists id :: Holds(id, channel)
    {
      if channel in idsByChannel {
        var id :| id in idsByChannel[channel];
        assert Holds(id, channel);
      }
      if id :| Holds(id, channel) {
        assert channel in idsByChannel && id in idsByChannel[channel];
      }
    }

    /** Lists a new subscriber under each of its channels. */
    method Index(id: nat, held: set<string>) returns (added: bool)
      requires forall c <- idsByChannel :: idsByChannel[c] != {} && id !in idsByChannel[c]
      modifies this`idsByChannel
      ensures forall c <- idsByChannel :: idsByChannel[c] != {}
      ensures forall c, i :: c in idsByChannel && i in idsByChannel[c]
                             <==> (c in old(idsByChannel) && i in old(idsByChannel)[c]) || (i == id && c in held)
      ensures idsByChannel.Keys == old(idsByChannel.Keys) + held
      ensures added <==> idsByChannel.Keys != old(idsByChannel.Keys)
    {
      added := false;
      var left := held;
      while left != {}
        invariant left <= held
        invariant forall c <- idsByChannel :: idsByChannel[c] != {}
        invariant forall c, i :: c in idsByChannel && i in idsByChannel[c]
                                 <==> (c in old(idsByChannel) && i in old(idsByChannel)[c]) || (i == id && c in held - left)
        invariant idsByChannel.Keys == old(idsByChannel.Keys) + (held - left)
        invariant added <==> idsByChannel.Keys != old(idsByChannel.Keys)
        decreases left
      {
        var c :| c in left;
        left := left - {c};
        if c in idsByChannel {
          idsByChannel := idsByChannel[c := idsByChannel[c] + {id}];
        } else {
          idsByChannel := idsByChannel[c := {id}];
          added := true;
        }
      }
    }

    method Subscribe(channels: seq<string>) returns (id: nat)
      requires Valid()
      modifies this
      ensures Valid() && id == old(nextId) && nextId == id + 1 && id !in old(subscribers)
      ensures subscribers == old(subscribers)[id := set c <- channels]
      ensures inbox == old(inbox)[id := []] && published == old(published)
      ensures ActiveChannels() == old(ActiveChannels()) + set c <- channels
      ensures changes == old(changes) + if ActiveChannels() == old(ActiveChannels()) then 0 else 1
    {
      id := nextId;
      assert forall c <- idsByChannel | id in idsByChannel[c] :: id in subscribers;
      nextId := nextId + 1;
      var held := set c <- channels;
      subscribers := subscribers[id := held];
      inbox := inbox[id := []];
      var added := Index(id, held);
      if added {
        changes := changes + 1;
      }
    }

    /** What a subscription returns; calling it again does nothing. */
    method Unsubscribe(id: nat)
      requires Valid()
      modifies this
      ensures Valid() && subscribers == old(subscribers) - {id} && nextId == old(nextId)
      ensures inbox == old(inbox) && published == old(published)
      ensures id !in old(subscribers) ==> idsByChannel == old(idsByChannel) && changes == old(changes)
      ensures changes == old(changes) + if ActiveChannels() == old(ActiveChannels()) then 0 else 1
    {
      if id !in subscribers {
        return;
      }
      var held := subscribers[id];
      subscribers := subscribers - {id};
      var removed, left := false, held;
      while left != {}
        invariant left <= held
        invariant forall c <- idsByChannel :: idsByChannel[c] != {}
        invariant forall c, i :: c in idsByChannel && i in idsByChannel[c]
                                 <==> (i in subscribers && c in subscribers[i]) || (i == id && c in left)
        invariant idsByChannel.Keys <= old(idsByChannel.Keys)
        invariant removed <==> idsByChannel.Keys != old(idsByChannel.Keys)
        invariant nextId == old(nextId) && subscribers == old(subscribers) - {id} && inbox == old(inbox)
        invariant published == old(published) && changes == old(changes)
        decreases left
      {
        var c :| c in left;
        left := left - {c};
        if c in idsByChannel {
          var ids := idsByChannel[c] - {id};
          if ids == {} {
            assert c in old(idsByChannel.Keys);
            idsByChannel := idsByChannel - {c};
            removed := true;
          } else {
            idsByChannel := idsByChannel[c := ids];
          }
        }
      }
      if removed {
        changes := changes + 1;
      }
    }

    /** Hands an event to everyone holding its channel, once each, and to nobody else. */
    method Publish(row: Row)
      requires Valid()
      modifies this`inbox, this`published
      ensures Valid() && inbox.Keys == old(inbox.Keys) && published == old(published) + [row]
      ensures forall id <- inbox ::
                inbox[id] == old(inbox)[id] + if Holds(id, row.event.channel) then [row] else []
    {
      published := published + [row];
      var channel := row.event.channel;
      var left := if channel in idsByChannel then idsByChannel[channel] else {};
      while left != {}
        invariant channel in idsByChannel ==> left <= idsByChannel[channel]
        invariant channel !in idsByChannel ==> left == {}
        invariant inbox.Keys == old(inbox.Keys) && published == old(published) + [row]
        invariant forall id <- inbox ::
                    inbox[id] == old(inbox)[id] + if Holds(id, channel) && id !in left then [row] else []
        decreases left
      {
        var id :| id in left;
        left := left - {id};
        if id in subscribers {
          inbox := inbox[id := inbox[id] + [row]];
        }
      }
    }
  }
}
