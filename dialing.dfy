/**
  * `server_connect` (zmq-irc/client.py:224-234, client.py:163-172): a client
  * factory named after the hostname and an SSL or plain TCP endpoint. The
  * connection attempt itself is I/O; the model records the request.
  */
module Dialing {
  /** A port as the caller passed it: a number from configuration, text from the bus. */
  datatype Port = PortNumber(n: nat) | PortText(s: string)

  datatype Endpoint = Ssl(host: string, port: Port) | Tcp(host: string, port: Port)

  /** One connection attempt: the factory's (email, network, nickname) and the endpoint. */
  datatype ConnectRequest = ConnectRequest(email: string, network: string, nick: string, endpoint: Endpoint)

  /** A configuration row `(email, hostname, port, ssl, nick)`. */
  datatype ServerRow = ServerRow(email: string, hostname: string, port: Port, ssl: bool, nick: string)

  /**
    * The attempt `server_connect` makes: the hostname doubles as the network
    * name, and `ssl` chooses the SSL endpoint over plain TCP.
    */
  function Dial(email: string, hostname: string, port: Port, ssl: bool, nick: string): (r: ConnectRequest)
    ensures r.network == hostname && r.endpoint.host == hostname && r.endpoint.port == port
    ensures r.endpoint.Ssl? <==> ssl
    ensures r.email == email && r.nick == nick
  {
    ConnectRequest(email, hostname, nick, if ssl then Ssl(hostname, port) else Tcp(hostname, port))
  }

  /** The attempts `server_init` makes: one per row, in row order. */
  function Dials(config: seq<ServerRow>): (r: seq<ConnectRequest>)
    ensures |r| == |config|
    ensures forall i :: 0 <= i < |config| ==>
              r[i] == Dial(config[i].email, config[i].hostname, config[i].port, config[i].ssl, config[i].nick)
  {
    seq(|config|, i requires 0 <= i < |config| =>
      Dial(config[i].email, config[i].hostname, config[i].port, config[i].ssl, config[i].nick))
  }
}
