/** The server command: one name-to-address store, kept for the life of the
    process, updated only by requests whose signature checks out. */
module Store {
  import opened Wrappers
  import opened Protocol

  const WrongSignature := "wrong signature"

  /** A query parameter is truthy when it is present and not the empty string. */
  predicate Truthy(v: Option<string>)
  {
    v.Some? && v.value != ""
  }

  /** The server's gate: a signature and a timestamp are given, and the signature
      is the digest of salt, serialised body (`{}` when absent) and timestamp. */
  predicate Accepts(salt: string, crypto: Crypto, req: Request)
  {
    && Truthy(req.signature)
    && Truthy(req.timestamp)
    && req.signature.value == SignatureOf(crypto, salt, BodyOrEmpty(req.body), req.timestamp.value)
  }

  /** `Object.assign(records, body)`: every key of the body takes the body's
      value, every other key keeps its value, and no key goes away. */
  function Merge(store: Record, body: Record): (r: Record)
    ensures r.Keys == store.Keys + body.Keys
    ensures forall k :: k in body ==> r[k] == body[k]
    ensures forall k :: k in store && k !in body ==> r[k] == store[k]
  {
    store + body
  }

  /** Merging the empty record (a read-only request) changes nothing. */
  lemma MergeEmpty(store: Record)
    ensures Merge(store, map[]) == store
  {
  }

  /** Merging the same body twice is merging it once. */
  lemma MergeIdempotent(store: Record, body: Record)
    ensures Merge(Merge(store, body), body) == Merge(store, body)
  {
  }

  /** Two merges in a row are one merge of the bodies, the later body winning per key. */
  lemma MergeLastWriterWins(store: Record, first: Record, second: Record)
    ensures Merge(Merge(store, first), second) == Merge(store, Merge(first, second))
    ensures forall k :: k in second ==> Merge(Merge(store, first), second)[k] == second[k]
  {
  }

  /** What the handler leaves behind: its response and the store afterwards. */
  datatype Handling = Handling(response: Response, store: Record)

  /** The handler as a function of the store it finds and the request. */
  function Serve(salt: string, crypto: Crypto, store: Record, req: Request): (h: Handling)
  {
    if !Accepts(salt, crypto, req) then
      Handling(Response(403, Text(WrongSignature)), store)
    else
      var merged := Merge(store, BodyOrEmpty(req.body));
      Handling(Response(200, Records(merged)), merged)
  }

  /** Whatever the request, no name is ever removed from the store, and an
      answer with status 200 carries exactly the store as it is afterwards. */
  lemma {:induction false} ServeKeepsNames(salt: string, crypto: Crypto, store: Record, req: Request)
    ensures store.Keys <= Serve(salt, crypto, store, req).store.Keys
    ensures var h := Serve(salt, crypto, store, req);
      h.response.status == 200 ==> h.response.payload == Records(h.store)
    ensures var h := Serve(salt, crypto, store, req);
      h.response.status != 200 ==> h.response == Response(403, Text(WrongSignature)) && h.store == store
  {
  }

  /** A request with no signature, or no timestamp, is refused whatever else it carries. */
  lemma UnsignedRejected(salt: string, crypto: Crypto, store: Record, req: Request)
    requires req.signature.None? || req.timestamp.None? || req.signature == Some("") || req.timestamp == Some("")
    ensures Serve(salt, crypto, store, req) == Handling(Response(403, Text(WrongSignature)), store)
  {
  }

  class Server {
    const salt: string
    const crypto: Crypto
    /** `let records: Record` in the server command, shared by every request. */
    var store: Record

    constructor (salt: string, crypto: Crypto, initial: Record)
      ensures this.salt == salt && this.crypto == crypto && store == initial
    {
      this.salt := salt;
      this.crypto := crypto;
      store := initial;
    }

    /** The request handler: refuse with 403 "wrong signature" and leave the
        store alone, or merge the body into the store and answer with the whole store. */
    method Handle(req: Request) returns (resp: Response)
      modifies this
      ensures !Accepts(salt, crypto, req) ==>
        resp == Response(403, Text(WrongSignature)) && store == old(store)
      ensures Accepts(salt, crypto, req) ==>
        store == Merge(old(store), BodyOrEmpty(req.body)) && resp == Response(200, Records(store))
      ensures Handling(resp, store) == Serve(salt, crypto, old(store), req)
    {
      if !Truthy(req.signature) || !Truthy(req.timestamp)
        || req.signature.value != SignatureOf(crypto, salt, BodyOrEmpty(req.body), req.timestamp.value)
      {
        resp := Response(403, Text(WrongSignature));
        return;
      }
      // Object.assign(records, undefined) leaves records as it is, as merging {} does.
      store := Merge(store, BodyOrEmpty(req.body));
      resp := Response(200, Records(store));
    }
  }

  /** The server command's start-up: `--port` and `--salt` are required, in that
      order; the store starts as the preloaded records, or empty without `--config`. */
  method ServerMain(port: Option<string>, salt: Option<string>, config: Option<Record>, crypto: Crypto)
    returns (r: Result<Server, string>)
    ensures port.None? ==> r == Failure("-p,--port is needed for this commond")
    ensures port.Some? && salt.None? ==> r == Failure("--salt is needed for this commond")
    ensures port.Some? && salt.Some? ==>
      && r.Success? && fresh(r.value)
      && r.value.salt == salt.value && r.value.crypto == crypto
      && r.value.store == (if config.Some? then config.value else map[])
  {
    if port.None? {
      return Failure("-p,--port is needed for this commond");
    }
    if salt.None? {
      return Failure("--salt is needed for this commond");
    }
    var records: Record := map[];
    if config.Some? {
      records := config.value;
    }
    var server := new Server(salt.value, crypto, records);
    return Success(server);
  }
}
