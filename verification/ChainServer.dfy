/** The chain replication objects: servers linked head to tail, and the client that talks to both ends. */
module ChainServer {
  import opened ClientLog

  /** A request as it arrives; `Unknown` stands for any other `type` field. */
  datatype Message = GET(key: string) | SET(key: string, val: string) | Unknown

  /** `Raised` is a Python exception: the connection is closed without an answer. */
  datatype Response = OK | Found(val: string) | UnexpectedType | Raised

  class CRServer {
    const next: CRServer?
    var d: KV
    /** This server and all that follow it. */
    ghost const chain: seq<CRServer>

    /** The servers from here on are distinct and end at the tail. */
    ghost predicate Linked()
      decreases |chain|
    {
      && |chain| >= 1 && chain[0] == this
      && (next == null ==> chain == [this])
      && (next != null ==> chain == [this] + next.chain && this !in next.chain && next.Linked())
    }

    constructor (next: CRServer?)
      requires next != null ==> next.Linked()
      ensures Linked() && this.next == next && d == map[]
      ensures chain == [this] + if next == null then [] else next.chain
    {
      this.next := next;
      d := map[];
      chain := [this] + if next == null then [] else next.chain;
    }

    /** One request, served without interference. A SET reaches every server from here to the tail;
        a GET is answered only by the tail and only for a key it has. */
    method ProcessReq(msg: Message) returns (r: Response)
      requires Linked()
      modifies chain
      ensures msg.SET? ==> r == OK && forall s <- chain :: s.d == old(s.d)[msg.key := msg.val]
      ensures !msg.SET? ==> forall s <- chain :: s.d == old(s.d)
      ensures msg.GET? ==> r == if next == null && msg.key in old(d) then Found(old(d)[msg.key]) else Raised
      ensures msg.Unknown? ==> r == UnexpectedType
      decreases |chain|
    {
      match msg {
        case GET(key) =>
          if next == null && key in d {
            r := Found(d[key]);
          } else {
            r := Raised;
          }
        case SET(key, val) =>
          d := d[key := val];
          if next != null {
            assert forall i :: 0 <= i < |next.chain| ==> chain[i + 1] == next.chain[i];
            r := next.ProcessReq(msg);
          } else {
            r := OK;
          }
        case Unknown =>
          r := UnexpectedType;
      }
    }
  }

  /** The chain a, b, c, d. */
  class CrCluster {
    const servers: seq<CRServer>

    ghost predicate Valid() {
      |servers| == 4 && servers[0].Linked() && servers[0].chain == servers && servers[3].Linked()
        && servers[3].next == null
    }

    constructor ()
      ensures Valid() && fresh(servers) && forall s <- servers :: s.d == map[]
    {
      var d := new CRServer(null);
      var c := new CRServer(d);
      var b := new CRServer(c);
      var a := new CRServer(b);
      servers := [a, b, c, d];
    }
  }

  class CrClient {
    const conns: seq<CRServer>

    constructor (cluster: CrCluster)
      requires cluster.Valid()
      ensures conns == cluster.servers
    {
      conns := cluster.servers;
    }

    ghost predicate Connected() {
      && |conns| >= 1 && conns[0].Linked() && conns[0].chain == conns
      && conns[|conns| - 1].Linked() && conns[|conns| - 1].next == null
    }

    /** SET goes to the head. */
    method Set(key: string, val: string) returns (ok: bool)
      requires Connected()
      modifies conns
      ensures ok && forall s <- conns :: s.d == old(s.d)[key := val]
    {
      var r := conns[0].ProcessReq(SET(key, val));
      ok := r.OK?;
    }

    /** GET goes to the tail and changes nothing. */
    method Get(key: string) returns (ok: bool, val: string)
      requires Connected()
      modifies conns
      ensures forall s <- conns :: s.d == old(s.d)
      ensures var tail := old(conns[|conns| - 1].d); ok == (key in tail) && (ok ==> val == tail[key])
    {
      ghost var tail := conns[|conns| - 1];
      assert tail.chain == [tail] && tail in conns;
      var r := conns[|conns| - 1].ProcessReq(GET(key));
      ok := r.Found?;
      val := if r.Found? then r.val else "";
    }
  }
}
