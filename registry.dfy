/** The broker's list of connected subscribers (`srv.clients` in cmd/server/main.go).
    A client is reduced to its integer Id: its message channel and disconnect channel
    are transport and are not modelled; what a send on them does is an input of the
    distribution loop. */
module Registry {

  datatype Client = Client(id: int)

  /** removeClient as a pure filter: the clients whose Id differs from `clientId`,
      in their original order. */
  function Without(clients: seq<Client>, clientId: int): (r: seq<Client>)
    ensures |r| <= |clients|
    ensures forall c :: c in r ==> c in clients && c.id != clientId
  {
    if clients == [] then []
    else
      var last := clients[|clients| - 1];
      Without(clients[..|clients| - 1], clientId) + (if last.id != clientId then [last] else [])
  }

  /** removeClient (cmd/server/main.go:267-278): builds a fresh slice by appending,
      in order, every client whose Id is not `clientId`. The input is a value and is
      left as it was. */
  method RemoveClient(clients: seq<Client>, clientId: int) returns (result: seq<Client>)
    ensures result == Without(clients, clientId)
  {
    result := [];
    var i := 0;
    while i < |clients|
      invariant 0 <= i <= |clients|
      invariant result == Without(clients[..i], clientId)
    {
      assert clients[..i + 1][..i] == clients[..i];
      if clients[i].id != clientId {
        result := result + [clients[i]];
      }
      i := i + 1;
    }
    assert clients[..i] == clients;
  }

  /** A client is kept exactly when it was there and its Id differs. */
  lemma {:induction false} WithoutMembers(clients: seq<Client>, clientId: int)
    ensures forall c :: c in Without(clients, clientId) <==> c in clients && c.id != clientId
  {
    if clients != [] {
      var init := clients[..|clients| - 1];
      WithoutMembers(init, clientId);
      assert clients == init + [clients[|clients| - 1]];
    }
  }

  /** Filtering distributes over concatenation: relative order is kept. */
  lemma {:induction false} WithoutAppend(a: seq<Client>, b: seq<Client>, clientId: int)
    ensures Without(a + b, clientId) == Without(a, clientId) + Without(b, clientId)
    decreases |b|
  {
    if b == [] {
      assert a + b == a;
    } else {
      var init, last := b[..|b| - 1], b[|b| - 1];
      var tail := if last.id != clientId then [last] else [];
      WithoutAppend(a, init, clientId);
      assert (a + b)[..|a + b| - 1] == a + init;
      assert (a + b)[|a + b| - 1] == last;
      calc {
        Without(a + b, clientId);
        Without(a + init, clientId) + tail;
        (Without(a, clientId) + Without(init, clientId)) + tail;
        Without(a, clientId) + (Without(init, clientId) + tail);
        Without(a, clientId) + Without(b, clientId);
      }
    }
  }

  /** Removing twice is removing once. */
  lemma {:induction false} WithoutIdempotent(clients: seq<Client>, clientId: int)
    ensures Without(Without(clients, clientId), clientId) == Without(clients, clientId)
  {
    if clients != [] {
      var init := clients[..|clients| - 1];
      var last := clients[|clients| - 1];
      WithoutIdempotent(init, clientId);
      WithoutAppend(Without(init, clientId), if last.id != clientId then [last] else [], clientId);
      assert [last][..0] == [];
    }
  }

  /** Removing an Id nobody has leaves the list as it was; removing one that is
      present makes the list strictly shorter. */
  lemma {:induction false} WithoutLength(clients: seq<Client>, clientId: int)
    ensures (forall c :: c in clients ==> c.id != clientId) ==> Without(clients, clientId) == clients
    ensures (exists c :: c in clients && c.id == clientId) ==> |Without(clients, clientId)| < |clients|
  {
    if clients != [] {
      var init := clients[..|clients| - 1];
      var last := clients[|clients| - 1];
      WithoutLength(init, clientId);
      assert clients == init + [last];
      if exists c :: c in clients && c.id == clientId {
        var c :| c in clients && c.id == clientId;
        if c != last {
          assert c in init;
        }
      }
    }
  }

  /** The registry append in sendMessages (cmd/server/main.go:212-216, 227): the new
      client gets the current length of the list as its Id and goes at the end. */
  function Joined(clients: seq<Client>): (r: seq<Client>)
    ensures |r| == |clients| + 1 && r[..|clients|] == clients
    ensures r[|clients|].id == |clients|
  {
    clients + [Client(|clients|)]
  }

  /** Ids are not unique once a removal has happened: two clients join (Ids 0 and 1),
      the first leaves, and the next to join also gets Id 1. Removing Id 1 then
      drops both live clients. */
  lemma DuplicateIdAfterRemoval()
    ensures Joined(Without(Joined(Joined([])), 0)) == [Client(1), Client(1)]
    ensures Without([Client(1), Client(1)], 1) == []
  {
    var two := Joined(Joined([]));
    assert two == [Client(0), Client(1)];
    assert two[..1] == [Client(0)];
    assert [Client(0)][..0] == [];
    assert Without(two, 0) == [Client(1)];
    assert [Client(1), Client(1)][..1] == [Client(1)];
    assert [Client(1)][..0] == [];
  }
}
