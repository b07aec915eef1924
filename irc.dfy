/**
  * What a session hands to the IRC protocol library (twisted's IRCClient),
  * whose inside is not part of this model: raw lines and library calls, in
  * the order the session makes them.
  */
module Irc {
  import opened Wrappers

  datatype Request =
    | RawLine(line: string)                                  // sendLine
    | JoinChannel(channel: string, key: Option<string>)      // IRCClient.join
    | Topic(channel: string)                                 // IRCClient.topic, as a query
    | PrivMsg(target: string, text: string, length: int)     // IRCClient.msg
    | CtcpQuery(target: string, tag: string, data: string)   // IRCClient.ctcpMakeQuery
}
