/**
 * The sample server of RpcGen.Sample/ServerApp.cs: a table from channel id to channel name,
 * which only CreateChannel changes, and the handlers that look a channel up and answer the
 * client with a `ReceiveMessage` notification.
 */
module Channels {
  import opened Wrappers

  // ---------------------------------------------------------------- channel ids

  predicate IsHexDigit(c: char) {
    '0' <= c <= '9' || 'a' <= c <= 'f'
  }

  /** A Guid, as its 32 hexadecimal digits in the order its text shows them. */
  type Guid = s: seq<char> | |s| == 32 && forall i :: 0 <= i < |s| ==> IsHexDigit(s[i])
    witness "00000000000000000000000000000000"

  /** The default ("D") text of a Guid, as string interpolation writes it: 8-4-4-4-12 lowercase digits. */
  function GuidText(g: Guid): (t: string)
    ensures |t| == 36
    ensures t[8] == '-' && t[13] == '-' && t[18] == '-' && t[23] == '-'
    ensures t[..8] + t[9..13] + t[14..18] + t[19..23] + t[24..] == g
  {
    var t := g[..8] + "-" + g[8..12] + "-" + g[12..16] + "-" + g[16..20] + "-" + g[20..];
    assert t[..8] == g[..8] && t[9..13] == g[8..12] && t[14..18] == g[12..16] && t[19..23] == g[16..20] && t[24..] == g[20..];
    assert g[..8] + g[8..12] + g[12..16] + g[16..20] + g[20..] == g;
    t
  }

  /** Different channels are named differently in error messages. */
  lemma GuidTextInjective(g1: Guid, g2: Guid)
    requires GuidText(g1) == GuidText(g2)
    ensures g1 == g2
  {
    var t := GuidText(g1);
    assert g1 == t[..8] + t[9..13] + t[14..18] + t[19..23] + t[24..] == g2;
  }

  // ---------------------------------------------------------------- handlers

  /** A call of the generated outbound stub `ReceiveMessage(channel, from, message)`. */
  datatype Notification = ReceiveMessage(channel: Guid, sender: string, message: string)

  /** The three handlers that only look a channel up. */
  datatype Visit = Join(channel: Guid) | Leave(channel: Guid) | Send(channel: Guid, message: string)

  const CreateFailed: string := "Unable to create channel, try again later"

  function UnknownChannel(g: Guid): string {
    "Channel '" + GuidText(g) + "' does not exist"
  }

  /** What the handler sends when the channel `name` exists. */
  function VisitNotification(v: Visit, name: string, clientName: string): Notification {
    match v
    case Join(g) => ReceiveMessage(g, "server", "Welcome to '" + name + "' " + clientName)
    case Leave(g) => ReceiveMessage(g, "server", clientName + " Left '" + name + "'")
    case Send(g, message) => ReceiveMessage(g, "client", message)
  }

  /**
   * JoinChannel, LeaveChannel and SendMessage: on a known channel, exactly one notification on
   * that channel and success; on an unknown one, InvalidOperationException and nothing sent.
   */
  function VisitChannel(channels: map<Guid, string>, clientName: string, v: Visit): (r: (Result<(), string>, seq<Notification>))
    ensures v.channel in channels <==> r.0.Success?
    ensures r.0.Success? ==> |r.1| == 1 && r.1[0].channel == v.channel
    ensures r.0.Failure? ==> r.0.error == UnknownChannel(v.channel) && r.1 == []
  {
    if v.channel in channels then (Success(()), [VisitNotification(v, channels[v.channel], clientName)])
    else (Failure(UnknownChannel(v.channel)), [])
  }

  class ServerApp {
    const serverName: string
    var channels: map<Guid, string>
    var clientName: string

    constructor(serverName: string)
      ensures this.serverName == serverName && channels == map[] && clientName == ""
    {
      this.serverName := serverName;
      channels := map[];
      clientName := "";
    }

    /** The `ClientName` setter. */
    method SetClientName(name: string)
      modifies this
      ensures clientName == name && channels == old(channels)
    {
      clientName := name;
    }

    /** CreateChannel with `channelId` as the value Guid.NewGuid() returned: TryAdd, or throw when the id is taken. */
    method CreateChannel(channel: string, channelId: Guid) returns (r: Result<Guid, string>)
      modifies this
      ensures channelId in old(channels) ==> r == Failure(CreateFailed) && channels == old(channels)
      ensures channelId !in old(channels) ==> r == Success(channelId) && channels == old(channels)[channelId := channel]
      ensures clientName == old(clientName)
    {
      if channelId in channels {
        return Failure(CreateFailed);
      }
      channels := channels[channelId := channel];
      return Success(channelId);
    }

    /** GetChannelList: each (id, name) entry of the table once, in the dictionary's enumeration order. */
    method GetChannelList() returns (list: seq<(Guid, string)>)
      ensures forall g, n :: (g, n) in list <==> g in channels && channels[g] == n
      ensures |list| == |channels.Keys|
      ensures forall i, j :: 0 <= i < j < |list| ==> list[i].0 != list[j].0
    {
      list := [];
      var rest := channels.Keys;
      while rest != {}
        invariant rest <= channels.Keys
        invariant forall g, n :: (g, n) in list <==> g in channels && g !in rest && channels[g] == n
        invariant |list| + |rest| == |channels.Keys|
        invariant forall i, j :: 0 <= i < j < |list| ==> list[i].0 != list[j].0
        decreases |rest|
      {
        var g :| g in rest;
        ListedOnceHelper(list, g, rest);
        list := list + [(g, channels[g])];
        rest := rest - {g};
      }
    }

    /** JoinChannel: welcome the client to a known channel; `channels` and `clientName` are only read. */
    method JoinChannel(channel: Guid) returns (r: Result<(), string>, sent: seq<Notification>)
      ensures (r, sent) == VisitChannel(channels, clientName, Join(channel))
    {
      if channel in channels {
        return Success(()), [VisitNotification(Join(channel), channels[channel], clientName)];
      }
      return Failure(UnknownChannel(channel)), [];
    }

    /** LeaveChannel: tell the client it left a known channel. */
    method LeaveChannel(channel: Guid) returns (r: Result<(), string>, sent: seq<Notification>)
      ensures (r, sent) == VisitChannel(channels, clientName, Leave(channel))
    {
      if channel in channels {
        return Success(()), [VisitNotification(Leave(channel), channels[channel], clientName)];
      }
      return Failure(UnknownChannel(channel)), [];
    }

    /** SendMessage: echo the message back on a known channel. */
    method SendMessage(channel: Guid, message: string) returns (r: Result<(), string>, sent: seq<Notification>)
      ensures (r, sent) == VisitChannel(channels, clientName, Send(channel, message))
    {
      if channel in channels {
        return Success(()), [VisitNotification(Send(channel, message), channels[channel], clientName)];
      }
      return Failure(UnknownChannel(channel)), [];
    }
  }

  /** An id still to be listed is not yet in the list. */
  lemma ListedOnceHelper(list: seq<(Guid, string)>, g: Guid, rest: set<Guid>)
    requires g in rest
    requires forall h, n :: (h, n) in list ==> h !in rest
    ensures forall i :: 0 <= i < |list| ==> list[i].0 != g
  {
    forall i | 0 <= i < |list|
      ensures list[i].0 != g
    {
      assert (list[i].0, list[i].1) in list;
    }
  }

  // ---------------------------------------------------------------- properties

  /**
   * A channel just created can be joined, left and written to: each handler succeeds and
   * its notification carries the name it was created with.
   */
  lemma {:induction false} CreatedChannelIsVisitable(channels: map<Guid, string>, name: string, g: Guid, clientName: string, v: Visit)
    requires g !in channels && v.channel == g
    ensures var r := VisitChannel(channels[g := name], clientName, v);
            r.0.Success?
            && (v.Join? ==> r.1 == [ReceiveMessage(g, "server", "Welcome to '" + name + "' " + clientName)])
            && (v.Leave? ==> r.1 == [ReceiveMessage(g, "server", clientName + " Left '" + name + "'")])
            && (v.Send? ==> r.1 == [ReceiveMessage(g, "client", v.message)])
  {
    assert channels[g := name][g] == name;
  }

  /** Creating one channel does not change what the handlers do on any other. */
  lemma {:induction false} CreateLeavesOtherChannels(channels: map<Guid, string>, name: string, g: Guid, clientName: string, v: Visit)
    requires v.channel != g
    ensures VisitChannel(channels[g := name], clientName, v) == VisitChannel(channels, clientName, v)
  {
    assert (v.channel in channels[g := name]) == (v.channel in channels);
    if v.channel in channels {
      assert channels[g := name][v.channel] == channels[v.channel];
    }
  }

  /** Unknown-channel errors name the channel: two errors are equal only for the same id. */
  lemma UnknownChannelNamesId(g1: Guid, g2: Guid)
    requires UnknownChannel(g1) == UnknownChannel(g2)
    ensures g1 == g2
  {
    var e := UnknownChannel(g1);
    assert e[9..45] == GuidText(g1);
    assert UnknownChannel(g2)[9..45] == GuidText(g2);
    GuidTextInjective(g1, g2);
  }
}
