/** The Bayou server object; each method does to its storage what one cluster step does to a node. */
module BayouServer {
  import opened BayouLog
  import opened BayouStorage
  import opened BayouCluster

  datatype WriteState = TENTATIVE | COMMITTED

  class Server {
    const name: string
    const isPrimary: bool
    const storage: Storage

    ghost predicate Valid()
      reads this, storage, storage.c, storage.f, storage.committedSt, storage.tentativeSt
    {
      storage.Valid() && name in storage.c.vector
    }

    constructor (name: string, isPrimary: bool, peers: set<string>)
      requires name in peers
      ensures Valid() && this.name == name && this.isPrimary == isPrimary
      ensures fresh(storage) && storage.View() == InitStore(peers)
    {
      this.name := name;
      this.isPrimary := isPrimary;
      storage := new Storage(peers);
    }

    /** A client appends `ch`; `now` is the reading of this server's clock. */
    method ProcessAppReq(ch: char, now: int) returns (state: WriteState)
      requires Valid()
      modifies storage, storage.c, storage.f, storage.committedSt, storage.tentativeSt
      ensures Valid() && (state == COMMITTED <==> isPrimary)
      ensures storage.View() == Written(isPrimary, old(storage.View()), Entry(LogicalTime(name, now), ch))
    {
      var e := Entry(LogicalTime(name, now), ch);
      if isPrimary {
        storage.Commit([e]);
        state := COMMITTED;
      } else {
        storage.Tentative([e]);
        state := TENTATIVE;
      }
    }

    /** Committed and tentative strings, as a GET_STRING request reports them. */
    method GetString() returns (committed: string, tentative: string)
      requires Valid()
      ensures committed == Replay(storage.committedLog)
      ensures tentative == Replay(storage.committedLog + storage.tentativeLog)
    {
      committed, tentative := storage.committedSt.s, storage.tentativeSt.s;
    }

    /** The asking side: the primary turns the tentative half of a reply into commits. */
    method ApplyReply(committed: seq<Entry>, tentative: seq<Entry>)
      requires Valid() && Named(committed, storage.c.vector) && Named(tentative, storage.c.vector)
      modifies storage, storage.c, storage.f, storage.committedSt, storage.tentativeSt
      ensures Valid()
      ensures storage.View() == Received(isPrimary, old(storage.View()), committed, tentative)
    {
      if isPrimary {
        storage.Apply(committed + tentative, []);
      } else {
        storage.Apply(committed, tentative);
      }
    }

    /** One round of the anti-entropy loop with one peer; a rejected request changes nothing. */
    method PullFrom(peer: Server) returns (ok: bool)
      requires Valid() && peer.Valid() && peer != this
      requires storage.c.vector.Keys == peer.storage.c.vector.Keys
      modifies storage, storage.c, storage.f, storage.committedSt, storage.tentativeSt
      ensures Valid()
      ensures var before := old(storage.View());
              var reply := old(Missing(peer.storage.View(), before.c, before.f));
              && ok == reply.Reply?
              && storage.View() == if ok then Received(isPrimary, before, reply.committed, reply.tentative) else before
    {
      var c, f := storage.c.vector, storage.f.vector;
      var reply := peer.storage.AntiEntropy(c, f);
      ok := reply.Reply?;
      if ok {
        AfterMembers(c, peer.storage.committedLog);
        AfterMembers(f, peer.storage.tentativeLog);
        ApplyReply(reply.committed, reply.tentative);
      }
    }
  }
}
