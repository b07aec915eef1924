/**
  * One IRC session of the older bridge (client.py:32-91): the joined channel
  * list, the publisher created at sign-on, and the requests the session hands
  * to the IRC library.
  */
module HashiSession {
  import opened Wrappers
  import opened Values
  import opened Irc
  import opened Control
  import opened HashiPublisher
  import opened Channels

  /** A row of the channel configuration query: the channel name and its key. */
  datatype ChannelRow = ChannelRow(name: string, key: Option<string>)

  /**
    * `initial_join`: one join per row, in row order; a NULL or empty key
    * (`channel[1] or None`) joins without a key.
    */
  function InitialJoins(rows: seq<ChannelRow>): (r: seq<Request>)
    ensures |r| == |rows|
    ensures forall i :: 0 <= i < |rows| ==>
              r[i].JoinChannel? && r[i].channel == rows[i].name
              && (r[i].key.Some? <==> rows[i].key.Some? && rows[i].key.value != "")
              && (r[i].key.Some? ==> r[i].key == rows[i].key)
  {
    seq(|rows|, i requires 0 <= i < |rows| =>
      JoinChannel(rows[i].name, if rows[i].key == Some("") then None else rows[i].key))
  }

  class Client {
    // the factory's fields, read through properties (client.py:33-43, 81-84)
    const email: string
    const network: string
    const nickname: string

    var channels: seq<string>
    var publish: RemoteEventPublisher?
    var wire: seq<Request>

    /** The publisher, once there is one, is named after this session's network and nickname. */
    ghost predicate Valid()
      reads this
    {
      publish != null ==> publish.network == Text(network) && publish.identity == Text(nickname)
    }

    constructor (email: string, network: string, nickname: string)
      ensures Valid()
      ensures this.email == email && this.network == network && this.nickname == nickname
      ensures channels == [] && publish == null && wire == []
    {
      this.email := email;
      this.network := network;
      this.nickname := nickname;
      channels := [];
      publish := null;
      wire := [];
    }

    /**
      * `signedOn`: empties the channel list and opens a new publisher on a
      * new socket, whose first record is `signedOn` with the nickname.
      */
    method SignedOn()
      modifies this`channels, this`publish
      ensures Valid()
      ensures channels == []
      ensures publish != null && fresh(publish) && fresh(publish.socket)
      ensures publish.socket.sent == [Wire(Text(network), Text(nickname), Literal("signedOn"), [Text(nickname)])]
    {
      channels := [];
      publish := new RemoteEventPublisher(Text(network), Text(nickname));
      publish.Event(Literal("signedOn"), [Text(nickname)]);
    }

    /** `initial_join`, run with the rows of the channel configuration query. */
    method InitialJoin(rows: seq<ChannelRow>)
      modifies this`wire
      ensures wire == old(wire) + InitialJoins(rows)
    {
      var i := 0;
      while i < |rows|
        invariant 0 <= i <= |rows|
        invariant wire == old(wire) + InitialJoins(rows[..i])
      {
        var row := rows[i];
        Join(row.name, if row.key == Some("") then None else row.key);
        assert InitialJoins(rows[..i + 1]) == InitialJoins(rows[..i]) + [InitialJoins(rows)[i]];
        i := i + 1;
      }
      assert rows[..i] == rows;
    }

    /** `joined`: appends the channel (duplicates allowed) and publishes `joined`. */
    method Joined(channel: string)
      requires Valid() && publish != null
      modifies this`channels, publish.socket
      ensures channels == old(channels) + [channel]
      ensures publish.socket.sent == old(publish.socket.sent)
              + [Wire(Text(network), Text(nickname), Literal("joined"), [Text(channel)])]
    {
      channels := channels + [channel];
      publish.Event(Literal("joined"), [Text(channel)]);
    }

    /**
      * `left`: removes the first copy of the channel and publishes `left`;
      * a channel not in the list raises before anything is published.
      */
    method Left(channel: string) returns (ok: bool)
      requires Valid() && publish != null
      modifies this`channels, publish.socket
      ensures ok <==> channel in old(channels)
      ensures ok ==> channels == RemoveFirst(old(channels), channel).value
      ensures ok ==> (publish.socket.sent == old(publish.socket.sent)
                      + [Wire(Text(network), Text(nickname), Literal("left"), [Text(channel)])])
      ensures !ok ==> channels == old(channels) && publish.socket.sent == old(publish.socket.sent)
    {
      match RemoveFirst(channels, channel)
      case None =>
        ok := false;
      case Some(rest) =>
        channels := rest;
        publish.Event(Literal("left"), [Text(channel)]);
        ok := true;
    }

    /**
      * `msg`: the library request, then a `privmsg` record with the bridge's
      * own nickname, the target and the text. The library call comes first,
      * so before sign-on the request still goes out and the call then fails.
      */
    method Msg(target: string, text: string, length: int) returns (failure: Option<Failure>)
      requires Valid()
      modifies this`wire, if publish != null then {publish.socket} else {}
      ensures wire == old(wire) + [PrivMsg(target, text, length)]
      ensures publish == null ==> failure == Some(NotSignedOn)
      ensures publish != null ==>
                && failure == None
                && publish.socket.sent == old(publish.socket.sent)
                   + [Wire(Text(network), Text(nickname), Literal("privmsg"), Texts([nickname, target, text]))]
    {
      wire := wire + [PrivMsg(target, text, length)];
      if publish == null {
        failure := Some(NotSignedOn);
      } else {
        failure := None;
        publish.Event(Literal("privmsg"), Texts([nickname, target, text]));
      }
    }

    /**
      * `privmsg`: a message seen on IRC is published with its sender, channel
      * and text; before sign-on there is no publisher, so it raises and
      * nothing is published.
      */
    method Privmsg(user: string, channel: string, msg: string) returns (ok: bool)
      requires Valid()
      modifies if publish != null then {publish.socket} else {}
      ensures ok == (publish != null)
      ensures ok ==> (publish.socket.sent == old(publish.socket.sent)
                      + [Wire(Text(network), Text(nickname), Literal("privmsg"), Texts([user, channel, msg]))])
    {
      if publish == null {
        return false;
      }
      publish.Event(Literal("privmsg"), Texts([user, channel, msg]));
      ok := true;
    }

    /** IRCClient.join. */
    method Join(channel: string, key: Option<string>)
      modifies this`wire
      ensures wire == old(wire) + [JoinChannel(channel, key)]
    {
      wire := wire + [JoinChannel(channel, key)];
    }
  }
}
