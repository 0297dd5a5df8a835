/**
 The control flow of api/app.js around the remote file: `loadData`, `saveData`
 (metadata fetch, sha check, PUT, failure check, broadcast), the `broadcast`
 fan-out over the subscriber list, and the four POST handlers that load,
 transform and save. Network answers are inputs (a Network value); the
 remote file itself is the `store` field, which only an accepted PUT changes.
 */
module App {
  import opened Entries
  import opened Subscriptions
  import opened RemoteStore

  /** Messages of the errors the code throws. */
  const LoadErrorText: string := "Error fetching database.json"
  const MetaErrorText: string := "Cannot retrieve file SHA for commit"
  const CommitFailedPrefix: string := "GitHub commit failed: "

  /**
   The separator in the edit route's commit message, as the characters that
   api/app.js:156 holds: U+00E2 U+2020 U+2019, the UTF-8 bytes of an arrow read as Windows-1252.
   */
  const EditSeparator: string := " \U{00E2}\U{2020}\U{2019} "

  /**
   The network's answer to the raw GET of `loadData`: a JSON body, a non-ok
   status, or a throw (`fetch` rejected, or the body is not JSON) with that error's message.
   */
  datatype LoadReply = Fetched | NotOk | LoadThrew(message: string)

  /** `loadData()`: the parsed array, or the message of the error it throws. */
  datatype LoadResult = LoadFailed(message: string) | Loaded(doc: Document)

  /**
   How `saveData` ends: the sha was missing or empty, the PUT answered non-ok
   with a text, a request threw with its own message, or it succeeded.
   */
  datatype SaveOutcome = MetaError | WriteError(text: string) | Threw(message: string) | Ok

  /** What a POST handler sends: `res.redirect("/admin")` or `res.status(500).send(message)`. */
  datatype Response = Redirect | ServerError(message: string)

  /** The four admin routes with their body fields. */
  datatype Mutation =
    | AddNomor(nomor: Param)
    | DeleteNomor(nomor: Param)
    | BlockNomor(nomor: Param)
    | EditNomor(oldNomor: Param, newNomor: string)

  /**
   The answers the network gives during one POST, in the order they are asked for:
   the handler's load, the metadata fetch, the PUT, and the reload made by broadcast.
   */
  datatype Network = Network(load: LoadReply, meta: MetaReply, put: PutReply, reload: LoadReply)

  /** The new array each route computes from the loaded one. */
  function Transform(m: Mutation, d: Document): (r: Document)
    ensures m.AddNomor? ==> |d| <= |r| <= |d| + 1 && r[..|d|] == d
    ensures m.DeleteNomor? ==> |r| <= |d| && forall i :: 0 <= i < |r| ==> !Matches(r[i], m.nomor)
    ensures m.BlockNomor? || m.EditNomor? ==> |r| == |d|
    ensures m.BlockNomor? ==> forall i :: 0 <= i < |d| ==> r[i].nomor == d[i].nomor
    ensures m.EditNomor? ==> forall i :: 0 <= i < |d| ==> r[i].status == d[i].status
  {
    match m
    case AddNomor(n) => Add(d, n)
    case DeleteNomor(n) => Delete(d, n)
    case BlockNomor(n) => Block(d, n)
    case EditNomor(o, n) => Edit(d, o, n)
  }

  /** The commit message each route passes to `saveData`: a fixed prefix, then the field texts. */
  function CommitMessage(m: Mutation): (r: string)
    ensures m.AddNomor? ==> |r| >= 10 && r[..10] == "Add nomor " && r[10..] == ParamText(m.nomor)
    ensures m.DeleteNomor? ==> |r| >= 13 && r[..13] == "Delete nomor " && r[13..] == ParamText(m.nomor)
    ensures m.BlockNomor? ==> |r| >= 12 && r[..12] == "Block nomor " && r[12..] == ParamText(m.nomor)
    ensures m.EditNomor? ==>
              var k := 11 + |ParamText(m.oldNomor)|;
              && |r| == k + |EditSeparator| + |m.newNomor|
              && r[..11] == "Edit nomor " && r[11..k] == ParamText(m.oldNomor)
              && r[k..k + |EditSeparator|] == EditSeparator && r[k + |EditSeparator|..] == m.newNomor
  {
    match m
    case AddNomor(n) => "Add nomor " + ParamText(n)
    case DeleteNomor(n) => "Delete nomor " + ParamText(n)
    case BlockNomor(n) => "Block nomor " + ParamText(n)
    case EditNomor(o, n) => "Edit nomor " + ParamText(o) + EditSeparator + n
  }

  /** The outcome `saveData` reaches for given metadata and PUT answers. */
  function Outcome(meta: MetaReply, put: PutReply): (o: SaveOutcome)
    ensures meta.MetaThrew? ==> o == Threw(meta.message)
    ensures o == MetaError <==> !meta.MetaThrew? && !HasSha(meta)
    ensures o == Ok <==> HasSha(meta) && put.Accepted?
    ensures o.WriteError? <==> HasSha(meta) && put.Rejected?
    ensures o.WriteError? ==> o.text == put.text
    ensures HasSha(meta) && put.PutThrew? ==> o == Threw(put.message)
  {
    if meta.MetaThrew? then Threw(meta.message)
    else if !HasSha(meta) then MetaError
    else match put
      case Rejected(text) => WriteError(text)
      case PutThrew(message) => Threw(message)
      case Accepted(_) => Ok
  }

  /** `err.message` of a failed save. */
  function ErrorMessage(o: SaveOutcome): (msg: string)
    requires o != Ok
    ensures o == MetaError ==> msg == MetaErrorText
    ensures o.WriteError? ==> msg == CommitFailedPrefix + o.text
    ensures o.Threw? ==> msg == o.message
  {
    match o
    case MetaError => MetaErrorText
    case WriteError(t) => CommitFailedPrefix + t
    case Threw(m) => m
  }

  /** A handler's reply once its load succeeded: redirect after a save, else 500 with the message. */
  function Respond(o: SaveOutcome): (r: Response)
    ensures r == Redirect <==> o == Ok
    ensures o != Ok ==> r == ServerError(ErrorMessage(o))
  {
    if o == Ok then Redirect else ServerError(ErrorMessage(o))
  }

  /** One server-sent event: `data: `, the payload, and the blank line that ends the event. */
  function Frame(payload: string): (r: string)
    ensures |r| == |payload| + 8
    ensures r[..6] == "data: " && r[6..|r| - 2] == payload && r[|r| - 2..] == "\n\n"
  {
    "data: " + payload + "\n\n"
  }

  /** n copies of x. */
  function Repeat(x: string, n: nat): (r: seq<string>)
    ensures |r| == n
    ensures forall i :: 0 <= i < n ==> r[i] == x
  {
    if n == 0 then [] else Repeat(x, n - 1) + [x]
  }

  /** The module-level state of api/app.js, with the remote file beside it. */
  class Server {
    /** `clients`. */
    const registry: Registry
    /** `JSON.stringify`, left uninterpreted. */
    const encode: Document -> string
    /** The remote database.json and its sha. */
    var store: Store
    /** Every PUT body sent, in order. */
    var commits: seq<Commit>
    /** Every subscriber written to, in the order of the writes. */
    ghost var delivered: seq<Subscriber>

    constructor (initial: Store, encode: Document -> string)
      ensures fresh(registry) && registry.clients == []
      ensures this.encode == encode && store == initial && commits == [] && delivered == []
      ensures Valid()
    {
      registry := new Registry();
      this.encode := encode;
      store := initial;
      commits := [];
      delivered := [];
    }

    /** No subscriber was written to. */
    twostate predicate Quiet()
      reads this, registry, registry.clients
    {
      && registry.clients == old(registry.clients)
      && delivered == old(delivered)
      && forall c :: c in old(registry.clients) ==> c.log == old(c.log)
    }

    /** Every subscriber got the frame once per occurrence in the list, in list order. */
    twostate predicate FannedOut(frame: string)
      reads this, registry, registry.clients
    {
      && registry.clients == old(registry.clients)
      && delivered == old(delivered) + registry.clients
      && forall c :: c in old(registry.clients) ==> c.log == old(c.log) + Repeat(frame, multiset(registry.clients)[c])
    }

    /** No response object is listed twice. */
    ghost predicate Valid()
      reads this, registry
    {
      Distinct(registry.clients)
    }

    /**
     What `saveData(newData, message)` leaves behind: a PUT is sent only when
     the metadata carried a truthy sha, and it carries that very sha. The store
     changes only on an accepted PUT. Subscribers hear of it only then, and only
     if the reload succeeds.
     */
    twostate predicate SaveEffect(newData: Document, message: string, meta: MetaReply, put: PutReply, reload: LoadReply)
      reads this, registry, registry.clients
    {
      && (!HasSha(meta) ==> commits == old(commits) && store == old(store) && Quiet())
      && (HasSha(meta) ==> commits == old(commits) + [Commit(newData, message, meta.sha)])
      && (HasSha(meta) ==> store == Apply(old(store), Commit(newData, message, meta.sha), put))
      && (HasSha(meta) && !put.Accepted? ==> Quiet())
      && (HasSha(meta) && put.Accepted? && reload.Fetched? ==> FannedOut(Frame(encode(newData))))
      && (HasSha(meta) && put.Accepted? && !reload.Fetched? ==> Quiet())
    }

    /** GET /events: a fresh response object is pushed onto `clients`. */
    method Connect() returns (h: Subscriber)
      requires Valid()
      modifies registry
      ensures Valid()
      ensures fresh(h) && h.log == []
      ensures registry.clients == old(registry.clients) + [h]
    {
      h := new Subscriber();
      assert h !in registry.clients;
      DistinctAdd(registry.clients, h);
      registry.Add(h);
    }

    /** The `close` event of that request: its response is filtered out of `clients`. */
    method Close(h: Subscriber)
      requires Valid()
      modifies registry
      ensures Valid()
      ensures registry.clients == Without(old(registry.clients), h)
    {
      DistinctWithout(registry.clients, h);
      registry.Remove(h);
    }

    /** `loadData()`: the current remote array, or the message of the error it throws. */
    method LoadData(reply: LoadReply) returns (r: LoadResult)
      ensures reply.Fetched? ==> r == Loaded(store.content)
      ensures reply.NotOk? ==> r == LoadFailed(LoadErrorText)
      ensures reply.LoadThrew? ==> r == LoadFailed(reply.message)
    {
      match reply
      case Fetched => r := Loaded(store.content);
      case NotOk => r := LoadFailed(LoadErrorText);
      case LoadThrew(message) => r := LoadFailed(message);
    }

    /** `broadcast()`: reload, then fan out one frame; a failed reload is swallowed and writes nothing. */
    method Broadcast(reply: LoadReply)
      modifies this`delivered, registry.clients
      ensures !reply.Fetched? ==> Quiet()
      ensures reply.Fetched? ==> FannedOut(Frame(encode(store.content)))
    {
      var loaded := LoadData(reply);
      if loaded.Loaded? {
        FanOut(Frame(encode(loaded.doc)));
      }
    }

    /** The `for (const client of clients)` loop: one write per list position, in list order. */
    method FanOut(frame: string)
      modifies this`delivered, registry.clients
      ensures FannedOut(frame)
    {
      var targets := registry.clients;
      for i := 0 to |targets|
        invariant delivered == old(delivered) + targets[..i]
        invariant forall c :: c in targets ==> c.log == old(c.log) + Repeat(frame, multiset(targets[..i])[c])
      {
        var c := targets[i];
        assert targets[..i + 1] == targets[..i] + [c];
        assert multiset(targets[..i + 1]) == multiset(targets[..i]) + multiset{c};
        c.Write(frame);
        delivered := delivered + [c];
      }
      assert targets[..|targets|] == targets;
    }

    /** `saveData(newData, message)`. */
    method SaveData(newData: Document, message: string, meta: MetaReply, put: PutReply, reload: LoadReply)
      returns (o: SaveOutcome)
      modifies this`store, this`commits, this`delivered, registry.clients
      ensures o == Outcome(meta, put)
      ensures SaveEffect(newData, message, meta, put, reload)
    {
      if meta.MetaThrew? {
        return Threw(meta.message);
      }
      if !HasSha(meta) {
        return MetaError;
      }
      var commit := Commit(newData, message, meta.sha);
      commits := commits + [commit];
      store := Apply(store, commit, put);
      match put
      case Rejected(text) =>
        return WriteError(text);
      case PutThrew(message) =>
        return Threw(message);
      case Accepted(_) =>
        Broadcast(reload);
        o := Ok;
    }

    /** A POST admin route: load, transform, save; a failed load answers 500 before anything is sent. */
    method Post(m: Mutation, net: Network) returns (r: Response)
      modifies this`store, this`commits, this`delivered, registry.clients
      ensures net.load.NotOk? ==> r == ServerError(LoadErrorText)
      ensures net.load.LoadThrew? ==> r == ServerError(net.load.message)
      ensures !net.load.Fetched? ==> commits == old(commits) && store == old(store) && Quiet()
      ensures net.load.Fetched? ==> r == Respond(Outcome(net.meta, net.put))
      ensures net.load.Fetched? ==> SaveEffect(Transform(m, old(store.content)), CommitMessage(m), net.meta, net.put, net.reload)
    {
      var loaded := LoadData(net.load);
      if loaded.LoadFailed? {
        return ServerError(loaded.message);
      }
      var o := SaveData(Transform(m, loaded.doc), CommitMessage(m), net.meta, net.put, net.reload);
      r := Respond(o);
    }

    /**
     A POST route whose load, metadata, PUT and reload all succeed: the route
     redirects, and every open connection receives exactly one frame, holding
     the transformed list.
     */
    method PostBroadcastsOnce(m: Mutation, net: Network) returns (r: Response)
      requires Valid()
      requires net.load.Fetched? && HasSha(net.meta) && net.put.Accepted? && net.reload.Fetched?
      modifies this`store, this`commits, this`delivered, registry.clients
      ensures Valid() && r == Redirect
      ensures store.content == Transform(m, old(store.content))
      ensures forall c :: c in registry.clients ==>
                c.log == old(c.log) + [Frame(encode(Transform(m, old(store.content))))]
    {
      r := Post(m, net);
      var frame := Frame(encode(Transform(m, old(store.content))));
      forall c | c in registry.clients
        ensures Repeat(frame, multiset(registry.clients)[c]) == [frame]
      {
        OneFramePerSubscriber(registry.clients, c, frame);
      }
    }
  }

  /** While every connection is listed once, a broadcast gives each of them exactly one frame. */
  lemma OneFramePerSubscriber(clients: seq<Subscriber>, c: Subscriber, frame: string)
    requires Distinct(clients) && c in clients
    ensures Repeat(frame, multiset(clients)[c]) == [frame]
  {
    DistinctOnce(clients, c);
  }

  /**
   Two connections, one of which closes; then a block: the open connection
   receives exactly one frame with the blocked list, the closed one nothing.
   */
  method ConnectCloseScenario(encode: Document -> string)
  {
    var server := new Server(Store([Entry("0811", Active)], "sha0"), encode);
    var a := server.Connect();
    var b := server.Connect();
    assert server.registry.clients == [a, b];
    WithoutConcat([a], [b], b);
    server.Close(b);
    assert server.registry.clients == [a];
    BlockBroadcastScenario(server, a, b);
  }

  method BlockBroadcastScenario(server: Server, a: Subscriber, b: Subscriber)
    requires server.store == Store([Entry("0811", Active)], "sha0")
    requires server.registry.clients == [a] && a != b
    requires a.log == [] && b.log == []
    modifies server, a
  {
    var net := Network(Fetched, Sha("sha0"), Accepted("sha1"), Fetched);
    var r := server.Post(BlockNomor(Given("0811")), net);
    assert r == Redirect;
    BlockThenAddScenario();
    var frame := Frame(server.encode([Entry("0811", Blocked)]));
    assert server.store == Store([Entry("0811", Blocked)], "sha1");
    assert multiset(server.registry.clients)[a] == 1;
    assert a.log == [frame];
    assert b.log == [];
  }
}
