/** The channel table as the program stores it, one array of subscriptions per channel, and the flat
    log of registrations that it stands for. */
module Channels {
  import opened Bits
  import opened Engine
  import opened Memory

  datatype Subscription = Subscription(callback: int, context: int)

  function Stored(r: Registration): Subscription {
    Subscription(r.callback, r.context)
  }

  lemma MatchingOneMore(log: seq<Registration>, r: Registration, name: string)
    ensures Matching(log + [r], name) == Matching(log, name) + if r.channel == name then [r] else []
  {
    assert (log + [r])[..|log|] == log;
  }

  /** Registrations only ever follow earlier ones. */
  lemma {:induction false} MatchingPrefix(log: seq<Registration>, longer: seq<Registration>, name: string)
    requires log <= longer
    ensures Matching(log, name) <= Matching(longer, name)
  {
    if |log| == |longer| {
      assert log == longer;
    } else {
      MatchingPrefix(log, longer[..|longer| - 1], name);
    }
  }

  /** The log after registering a sequence of subscriptions one by one. */
  function RegisterAll(rs: seq<Registration>): seq<Registration> {
    if rs == [] then []
    else
      var log := RegisterAll(rs[..|rs| - 1]);
      var r := rs[|rs| - 1];
      if |Matching(log, r.channel)| >= CHANNEL_LIMIT then log else log + [r]
  }

  ghost predicate WithinLimit(rs: seq<Registration>) {
    forall name :: |Matching(rs, name)| <= CHANNEL_LIMIT
  }

  lemma {:induction false} RegisteredWithinLimit(rs: seq<Registration>)
    ensures WithinLimit(RegisterAll(rs))
  {
    if rs != [] {
      var rest, r := rs[..|rs| - 1], rs[|rs| - 1];
      RegisteredWithinLimit(rest);
      forall name ensures |Matching(RegisterAll(rs), name)| <= CHANNEL_LIMIT {
        MatchingOneMore(RegisterAll(rest), r, name);
      }
    }
  }

  lemma {:induction false} FewAreAllRegistered(rs: seq<Registration>)
    requires WithinLimit(rs)
    ensures RegisterAll(rs) == rs
  {
    if rs != [] {
      var rest, r := rs[..|rs| - 1], rs[|rs| - 1];
      assert rs == rest + [r];
      forall name ensures |Matching(rest, name)| <= CHANNEL_LIMIT {
        MatchingOneMore(rest, r, name);
        assert |Matching(rs, name)| <= CHANNEL_LIMIT;
      }
      FewAreAllRegistered(rest);
      MatchingOneMore(rest, r, r.channel);
      assert |Matching(rs, r.channel)| <= CHANNEL_LIMIT;
    }
  }

  /** All subscriptions are kept, in order, exactly when no channel gets more than 16 of them. */
  lemma AllRegisteredExactly(rs: seq<Registration>)
    ensures RegisterAll(rs) == rs <==> WithinLimit(rs)
  {
    RegisteredWithinLimit(rs);
    if WithinLimit(rs) {
      FewAreAllRegistered(rs);
    }
  }

  class Channel {
    const name: string
    var subscriptions: array<Subscription>
    var capacity: Word
    var count: nat

    /** The registrations that the array stands for, in order. */
    ghost var held: seq<Registration>

    ghost predicate Valid()
      reads this, subscriptions
    {
      && subscriptions.Length == capacity && (capacity == 4 || capacity == 16)
      && count == |held| <= capacity
      && forall k :: 0 <= k < count ==> subscriptions[k] == Stored(held[k])
    }

    constructor (name: string)
      ensures Valid() && this.name == name && held == [] && capacity == 4
      ensures fresh(subscriptions)
    {
      this.name := name;
      capacity := 4;
      count := 0;
      subscriptions := new Subscription[4];
      held := [];
    }

    /** The end of `channels_subscribe`. The array grows when it is full, but not past 16 places:
        `stored` is false where the program writes past its end. */
    method Add(r: Registration) returns (stored: bool)
      requires Valid()
      modifies this, subscriptions
      ensures Valid()
      ensures stored <==> |old(held)| < CHANNEL_LIMIT
      ensures capacity == if |old(held)| < old(capacity) then old(capacity) else 16
      ensures held == if stored then old(held) + [r] else old(held)
      ensures fresh(subscriptions) || subscriptions == old(subscriptions)
    {
      RoundUp32Sixteen();
      if count == capacity {
        capacity := RoundUp32(capacity, 15);
        subscriptions := Realloc(subscriptions, capacity);
      }
      stored := count < subscriptions.Length;
      if stored {
        subscriptions[count] := Subscription(r.callback, r.context);
        count := count + 1;
        held := held + [r];
      }
    }
  }

  class ChannelTable {
    var channels: array<Channel?>
    var channelCapacity: nat
    var channelCount: nat

    /** All registrations, in order, and the channels in use with their names. */
    ghost var log: seq<Registration>
    ghost var rows: seq<Channel>
    ghost var names: seq<string>
    ghost var Repr: set<object>

    ghost predicate Valid()
      reads this, Repr
      ensures Valid() ==> this in Repr
    {
      && this in Repr && channels in Repr
      && channels.Length == channelCapacity && channelCount == |rows| == |names| <= channelCapacity
      && (forall i :: 0 <= i < channelCount ==> channels[i] == rows[i])
      && RowsHold(log, rows, names, Repr)
      && RowsDiffer(rows, names, Repr)
      && forall r :: r in log ==> r.channel in names
    }

    /** Each row is a channel that holds what is logged for its name. */
    static ghost predicate RowsHold(log: seq<Registration>, rows: seq<Channel>, names: seq<string>, repr: set<object>)
      reads repr
    {
      && |rows| == |names|
      && forall i :: 0 <= i < |rows| ==>
           && rows[i] in repr && rows[i].subscriptions in repr && rows[i].name == names[i]
           && rows[i].Valid() && rows[i].held == Matching(log, names[i])
    }

    /** No two rows share a channel, an array or a name. */
    static ghost predicate RowsDiffer(rows: seq<Channel>, names: seq<string>, repr: set<object>)
      requires |rows| == |names| && forall i :: 0 <= i < |rows| ==> rows[i] in repr
      reads repr
    {
      forall i, j :: 0 <= i < j < |rows| ==>
        && rows[i] != rows[j] && rows[i].subscriptions != rows[j].subscriptions
        && names[i] != names[j]
    }

    constructor ()
      ensures Valid() && fresh(Repr)
      ensures log == []
    {
      channels := new Channel?[0];
      channelCapacity := 0;
      channelCount := 0;
      log := [];
      rows, names := [], [];
      new;
      Repr := {this, channels};
    }

    /** Finds the channel with a name, or -1. */
    method FindChannel(name: string) returns (index: int)
      requires Valid()
      ensures -1 <= index < channelCount
      ensures if index >= 0 then names[index] == name else name !in names
    {
      for i := 0 to channelCount
        invariant forall j :: 0 <= j < i ==> names[j] != name
      {
        assert channels[i] == rows[i];
        if channels[i].name == name {
          return i;
        }
      }
      return -1;
    }

    method GrowChannels()
      requires Valid()
      modifies this
      ensures Valid() && fresh(Repr - old(Repr)) && old(Repr) <= Repr
      ensures log == old(log) && rows == old(rows) && names == old(names) && channelCount < channelCapacity
      ensures channelCapacity == old(channelCapacity) + if channelCount < old(channelCapacity) then 0 else 64
    {
      if channelCount == channelCapacity {
        channelCapacity := channelCapacity + 64;
        channels := Realloc(channels, channelCapacity);
        Repr := Repr + {channels};
      }
    }

    /** Adds an empty channel. */
    method NewChannel(name: string)
      requires Valid() && name !in names
      modifies Repr
      ensures Valid() && fresh(Repr - old(Repr)) && old(Repr) <= Repr
      ensures log == old(log) && names == old(names) + [name] && old(rows) <= rows
    {
      GrowChannels();
      var channel := new Channel(name);
      Place(channel);
    }

    method Place(channel: Channel)
      requires Valid() && channelCount < channelCapacity
      requires channel !in Repr && channel.subscriptions !in Repr
      requires channel.name !in names && channel.Valid() && channel.held == []
      modifies this, channels
      ensures Valid() && Repr == old(Repr) + {channel, channel.subscriptions}
      ensures log == old(log) && names == old(names) + [channel.name] && rows == old(rows) + [channel]
    {
      hide Matching;
      NoRegistrationNoMatch(log, names, channel.name);
      CoveredByMore(log, names, channel.name);
      channels[channelCount] := channel;
      channelCount := channelCount + 1;
      rows, names := rows + [channel], names + [channel.name];
      Repr := Repr + {channel, channel.subscriptions};
    }

    /** The search at the start of `channels_subscribe`. */
    method FindOrCreate(name: string) returns (index: nat)
      requires Valid()
      modifies Repr
      ensures Valid() && fresh(Repr - old(Repr)) && old(Repr) <= Repr
      ensures log == old(log) && old(rows) <= rows
      ensures index < channelCount && names[index] == name
    {
      var found := FindChannel(name);
      if found >= 0 {
        return found;
      }
      NewChannel(name);
      return channelCount - 1;
    }

    /** `channels_subscribe`. */
    method Subscribe(r: Registration) returns (stored: bool)
      requires Valid()
      modifies Repr
      ensures Valid() && fresh(Repr - old(Repr)) && old(Repr) <= Repr
      ensures stored <==> |Matching(old(log), r.channel)| < CHANNEL_LIMIT
      ensures log == if stored then old(log) + [r] else old(log)
      ensures old(rows) <= rows
    {
      var index := FindOrCreate(r.channel);
      stored := AddAt(index, r);
    }

    method AddAt(index: nat, r: Registration) returns (stored: bool)
      requires Valid() && index < channelCount && names[index] == r.channel
      modifies Repr
      ensures Valid() && fresh(Repr - old(Repr)) && old(Repr) <= Repr
      ensures stored <==> |Matching(old(log), r.channel)| < CHANNEL_LIMIT
      ensures log == if stored then old(log) + [r] else old(log)
      ensures rows == old(rows)
    {
      hide Matching;
      var channel := channels[index];
      assert channel == rows[index];
      stored := channel.Add(r);
      Repr := Repr + {channel.subscriptions};
      CatchUp(index, r, stored);
    }

    /** The log catches up with an array that has just taken `r`, if it has. */
    ghost method CatchUp(index: nat, r: Registration, stored: bool)
      requires this in Repr && channels in Repr
      requires channels.Length == channelCapacity && channelCount == |rows| == |names| <= channelCapacity
      requires forall i :: 0 <= i < channelCount ==> channels[i] == rows[i]
      requires index < |rows| && names[index] == r.channel
      requires forall i :: 0 <= i < |rows| ==>
        && rows[i] in Repr && rows[i].subscriptions in Repr && rows[i].name == names[i] && rows[i].Valid()
        && rows[i].held == Matching(log, names[i]) + if stored && i == index then [r] else []
      requires RowsDiffer(rows, names, Repr)
      requires forall q :: q in log ==> q.channel in names
      modifies this`log
      ensures Valid() && log == if stored then old(log) + [r] else old(log)
    {
      hide Matching;
      if stored {
        LogGrows(log, names, index, r);
        log := log + [r];
      }
    }
  }

  lemma CoveredByMore(log: seq<Registration>, names: seq<string>, name: string)
    requires forall q :: q in log ==> q.channel in names
    ensures forall q :: q in log ==> q.channel in names + [name]
  {
  }

  /** A further registration is added to what its own channel holds and to nothing else. */
  lemma LogGrows(log: seq<Registration>, names: seq<string>, index: nat, r: Registration)
    requires index < |names| && names[index] == r.channel
    requires forall i :: 0 <= i < |names| && i != index ==> names[i] != r.channel
    requires forall q :: q in log ==> q.channel in names
    ensures forall i :: 0 <= i < |names| ==>
      Matching(log + [r], names[i]) == (if i == index then Matching(log, names[i]) + [r] else Matching(log, names[i]))
    ensures forall q :: q in log + [r] ==> q.channel in names
  {
    forall i | 0 <= i < |names|
      ensures Matching(log + [r], names[i]) ==
        if i == index then Matching(log, names[i]) + [r] else Matching(log, names[i])
    {
      MatchingOneMore(log, r, names[i]);
    }
  }

  lemma {:induction false} NoRegistrationNoMatch(log: seq<Registration>, names: seq<string>, name: string)
    requires (forall r :: r in log ==> r.channel in names) && name !in names
    ensures Matching(log, name) == []
  {
    if log != [] {
      NoRegistrationNoMatch(log[..|log| - 1], names, name);
      assert log[|log| - 1] in log;
    }
  }
}
