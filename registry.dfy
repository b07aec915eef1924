/**
  * The session registry, `clients`: a defaultdict from user to a dict from
  * network to session (zmq-irc/client.py:207, client.py:142).
  */
module Registry {
  type Clients<S> = map<string, map<string, S>>

  /** The session registered for (user, network), if any. */
  predicate Has<S>(clients: Clients<S>, user: string, network: string)
  {
    user in clients && network in clients[user]
  }

  /**
    * `clients[email][network] = session`: the entry at that key now holds
    * `session`, whatever it held before, and every other (user, network)
    * entry is as it was.
    */
  function Put<S>(clients: Clients<S>, email: string, network: string, session: S): (r: Clients<S>)
    ensures Has(r, email, network) && r[email][network] == session
    ensures forall u, n :: (u != email || n != network) ==>
              (Has(r, u, n) <==> Has(clients, u, n)) && (Has(clients, u, n) ==> r[u][n] == clients[u][n])
    ensures r.Keys == clients.Keys + {email}
  {
    var inner := if email in clients then clients[email] else map[];
    clients[email := inner[network := session]]
  }

  /**
    * `clients[user]` on the defaultdict: an unknown user gets an empty inner
    * dict inserted; no session is added, removed or replaced.
    */
  function Touch<S>(clients: Clients<S>, user: string): (r: Clients<S>)
    ensures user in r && r[user] == (if user in clients then clients[user] else map[])
    ensures r.Keys == clients.Keys + {user}
    ensures forall u, n :: (Has(r, u, n) <==> Has(clients, u, n)) && (Has(clients, u, n) ==> r[u][n] == clients[u][n])
  {
    if user in clients then clients else clients[user := map[]]
  }

  /** A later registration at the same key replaces the earlier one outright. */
  lemma PutReplaces<S>(clients: Clients<S>, email: string, network: string, a: S, b: S)
    ensures Put(Put(clients, email, network, a), email, network, b) == Put(clients, email, network, b)
  {
    var once := Put(clients, email, network, a);
    assert once[email][network := b] == (if email in clients then clients[email] else map[])[network := b];
  }

  /** Registrations at different keys do not interfere: their order does not matter. */
  lemma PutCommutes<S>(clients: Clients<S>, e1: string, n1: string, e2: string, n2: string, a: S, b: S)
    requires e1 != e2 || n1 != n2
    ensures Put(Put(clients, e1, n1, a), e2, n2, b) == Put(Put(clients, e2, n2, b), e1, n1, a)
  {
    var i1 := if e1 in clients then clients[e1] else map[];
    var i2 := if e2 in clients then clients[e2] else map[];
    if e1 == e2 {
      assert i1[n1 := a][n2 := b] == i1[n2 := b][n1 := a];
    } else {
      assert clients[e1 := i1[n1 := a]][e2 := i2[n2 := b]] == clients[e2 := i2[n2 := b]][e1 := i1[n1 := a]];
    }
  }
}
