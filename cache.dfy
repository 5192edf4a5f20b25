/** The client's sync engine (`Cache`): pull the server's records, check the
    local names against them, push the local names, keep the server's answer,
    and refresh it on every timer tick. */
module Sync {
  import opened Wrappers
  import opened Protocol
  import opened Store

  /** What became of one HTTP round trip. */
  datatype Link =
    | Delivered      // the request reached the server and its answer came back
    | RequestLost    // the request never reached the server
    | ResponseLost   // the server handled the request but its answer was lost

  /** One call of `updateCache`: the clock reading it signs with and the fate of its round trip. */
  datatype Attempt = Attempt(now: nat, link: Link)

  datatype SyncError =
    | Transport                 // the network call failed
    | HttpStatus(status: nat)   // the server answered with an error status
    | ProducerFailed            // `execute()` threw
    | Conflict(name: string)    // the name is already on the server with another address

  /** The query string and body `updateCache` sends for `record` at clock reading `now`. */
  function SignedRequest(crypto: Crypto, salt: string, record: Record, now: nat): (req: Request)
  {
    var timestamp := DecimalText(now);
    Request(Some(SignatureOf(crypto, salt, record, timestamp)), Some(timestamp), Some(record))
  }

  /** A request signed as the client signs it, with the server's own salt and
      library functions, passes the server's gate. */
  lemma SignedRequestAccepted(crypto: Crypto, salt: string, record: Record, now: nat)
    ensures Accepts(salt, crypto, SignedRequest(crypto, salt, record, now))
  {
  }

  /** How the client reads a response: any status of 400 or more is thrown as an
      error; otherwise the parsed JSON body is the result. */
  function ReplyOf(resp: Response): (r: Result<Record, SyncError>)
  {
    if resp.status >= 400 then Failure(HttpStatus(resp.status))
    else if resp.payload.Records? then Success(resp.payload.records)
    else Success(map[])
  }

  /** One round trip's effect: what the client gets back and the server's store afterwards. */
  datatype Exchanged = Exchanged(reply: Result<Record, SyncError>, store: Record)

  function Exchange(serverSalt: string, serverCrypto: Crypto, store: Record, req: Request, link: Link): (e: Exchanged)
  {
    if link == RequestLost then Exchanged(Failure(Transport), store)
    else
      var h := Serve(serverSalt, serverCrypto, store, req);
      Exchanged(if link == ResponseLost then Failure(Transport) else ReplyOf(h.response), h.store)
  }

  /** A successful round trip hands the client exactly the server's store as it
      stands afterwards, so the cache is never ahead of the server; and no round
      trip removes a name from the store. */
  lemma {:induction false} ExchangeReplyIsStore(serverSalt: string, serverCrypto: Crypto, store: Record, req: Request, link: Link)
    ensures var x := Exchange(serverSalt, serverCrypto, store, req, link);
      x.reply.Success? ==> x.reply.value == x.store
    ensures store.Keys <= Exchange(serverSalt, serverCrypto, store, req, link).store.Keys
  {
    ServeKeepsNames(serverSalt, serverCrypto, store, req);
  }

  /** Pushing the empty record never changes the server's store, whatever the
      salts, the clock or the network do. */
  lemma EmptyPushKeepsStore(serverSalt: string, serverCrypto: Crypto, store: Record, crypto: Crypto, salt: string, now: nat, link: Link)
    ensures Exchange(serverSalt, serverCrypto, store, SignedRequest(crypto, salt, map[], now), link).store == store
  {
    MergeEmpty(store);
  }

  /** With matching salt and library functions and a delivered round trip, the
      body is merged and the client receives the merged store. */
  lemma DeliveredPushMerges(salt: string, crypto: Crypto, store: Record, record: Record, now: nat)
    ensures Exchange(salt, crypto, store, SignedRequest(crypto, salt, record, now), Delivered)
      == Exchanged(Success(Merge(store, record)), Merge(store, record))
  {
    SignedRequestAccepted(crypto, salt, record, now);
  }

  /** A name the client wants is in conflict when the server already has it
      with a different address. A name the server lacks, or has with the same
      address, is not. */
  predicate ConflictsOn(remote: Record, name: string, wanted: NameRecord)
  {
    name in remote && remote[name].address != wanted.address
  }

  predicate HasConflict(remote: Record, local: Record)
  {
    exists name :: name in local && ConflictsOn(remote, name, local[name])
  }

  /** The members every plain JavaScript object inherits from `Object.prototype`. */
  const InheritedNames: set<string> := {
    "constructor", "hasOwnProperty", "isPrototypeOf", "propertyIsEnumerable",
    "toLocaleString", "toString", "valueOf", "__proto__",
    "__defineGetter__", "__defineSetter__", "__lookupGetter__", "__lookupSetter__"}

  /** The conflict test as the source writes it,
      `records_from_server[k] && records_from_server[k].address !== v.address`,
      on a parsed JSON object: a name the server lacks but that the object
      inherits reads as a truthy function whose `address` is undefined, which
      differs from every address. */
  predicate ConflictsAsWritten(remote: Record, name: string, wanted: NameRecord)
  {
    if name in remote then remote[name].address != wanted.address
    else name in InheritedNames
  }

  /** The as-written test reports a conflict for a host named `toString` on an
      empty server, where the corrected test rightly reports none. */
  lemma InheritedNameFalseConflict()
    ensures ConflictsAsWritten(map[], "toString", NameRecord("10.0.0.1"))
    ensures !ConflictsOn(map[], "toString", NameRecord("10.0.0.1"))
  {
  }

  /** The corrected test: a name absent from the server, or present with the
      same address, is never a conflict; the two tests agree on every other name. */
  lemma {:induction false} ConflictOnlyOnDifferentAddress(remote: Record, name: string, wanted: NameRecord)
    ensures name !in remote ==> !ConflictsOn(remote, name, wanted)
    ensures name in remote && remote[name] == wanted ==> !ConflictsOn(remote, name, wanted)
    ensures name in remote || name !in InheritedNames ==>
      (ConflictsOn(remote, name, wanted) <==> ConflictsAsWritten(remote, name, wanted))
  {
  }

  /** The `for` loop over `Object.entries(records_from_client)`: it stops at a
      conflicting name if there is one, and finds none only when there is none. */
  method FindConflict(remote: Record, local: Record) returns (found: Option<string>)
    ensures found.None? <==> !HasConflict(remote, local)
    ensures found.Some? ==> found.value in local && ConflictsOn(remote, found.value, local[found.value])
  {
    var todo := local.Keys;
    while todo != {}
      invariant todo <= local.Keys
      invariant forall name :: name in local && name !in todo ==> !ConflictsOn(remote, name, local[name])
      decreases todo
    {
      var name :| name in todo;
      if name in remote && remote[name].address != local[name].address {
        return Some(name);
      }
      todo := todo - {name};
    }
    return None;
  }

  /** The cache's options, less the `execute` callback, whose result is passed
      to `start` and to each tick instead. */
  datatype Options = Options(salt: string, url: string, time: nat, force: bool, crypto: Crypto)

  /** The round trip `updateCache(record)` makes, against a server with the given
      salt and library functions whose store is `store`. */
  function RoundTrip(opts: Options, serverSalt: string, serverCrypto: Crypto, store: Record, record: Record, at: Attempt): (e: Exchanged)
  {
    Exchange(serverSalt, serverCrypto, store, SignedRequest(opts.crypto, opts.salt, record, at.now), at.link)
  }

  /** How a synchronisation round ends, with the server's store afterwards. */
  datatype Round =
    | Synced(store: Record, records: Record)     // the answer is the new cache
    | Failed(store: Record, error: SyncError)    // thrown (by start) or logged (by a tick)
    | Refused(store: Record, names: set<string>) // start's conflict check fired on these names

  /** `start()`: pull with `{}`, take the producer's output `local`, check it
      against the pulled records unless forced, push it. */
  function StartRound(opts: Options, serverSalt: string, serverCrypto: Crypto, store: Record,
                      local: Option<Record>, first: Attempt, second: Attempt): (round: Round)
  {
    var pull := RoundTrip(opts, serverSalt, serverCrypto, store, map[], first);
    if pull.reply.Failure? then Failed(pull.store, pull.reply.error)
    else if local.None? then Failed(pull.store, ProducerFailed)
    else if !opts.force && HasConflict(pull.reply.value, local.value) then
      Refused(pull.store, set name | name in local.value && ConflictsOn(pull.reply.value, name, local.value[name]))
    else
      var push := RoundTrip(opts, serverSalt, serverCrypto, pull.store, local.value, second);
      if push.reply.Failure? then Failed(push.store, push.reply.error)
      else Synced(push.store, push.reply.value)
  }

  /** One refresh tick: push the producer's output, with no conflict check. */
  function TickRound(opts: Options, serverSalt: string, serverCrypto: Crypto, store: Record,
                     local: Option<Record>, at: Attempt): (round: Round)
  {
    if local.None? then Failed(store, ProducerFailed)
    else
      var push := RoundTrip(opts, serverSalt, serverCrypto, store, local.value, at);
      if push.reply.Failure? then Failed(push.store, push.reply.error)
      else Synced(push.store, push.reply.value)
  }

  /** Whatever start and the network do, the records a round caches are the
      server's store as it stands after the round, and no name leaves the store. */
  lemma {:induction false} RoundsNeverAheadOfServer(opts: Options, serverSalt: string, serverCrypto: Crypto, store: Record,
                                                     local: Option<Record>, first: Attempt, second: Attempt)
    ensures var s := StartRound(opts, serverSalt, serverCrypto, store, local, first, second);
      (s.Synced? ==> s.records == s.store) && store.Keys <= s.store.Keys
    ensures var t := TickRound(opts, serverSalt, serverCrypto, store, local, second);
      (t.Synced? ==> t.records == t.store) && store.Keys <= t.store.Keys
  {
    var pull := RoundTrip(opts, serverSalt, serverCrypto, store, map[], first);
    ExchangeReplyIsStore(serverSalt, serverCrypto, store, SignedRequest(opts.crypto, opts.salt, map[], first.now), first.link);
    if local.Some? {
      ExchangeReplyIsStore(serverSalt, serverCrypto, pull.store,
        SignedRequest(opts.crypto, opts.salt, local.value, second.now), second.link);
      ExchangeReplyIsStore(serverSalt, serverCrypto, store,
        SignedRequest(opts.crypto, opts.salt, local.value, second.now), second.link);
    }
  }

  /** Without force, a conflict found after a successful pull refuses the start
      on exactly the conflicting names, before anything is pushed: the store is
      as it was. Every start that ends otherwise than pushing leaves the store
      as it was too, because the pull only merges `{}`. */
  lemma {:induction false} ConflictRefusesStart(opts: Options, serverSalt: string, serverCrypto: Crypto, store: Record,
                                                local: Option<Record>, first: Attempt, second: Attempt)
    ensures var pull := RoundTrip(opts, serverSalt, serverCrypto, store, map[], first);
      pull.reply.Failure? || local.None? ==>
        StartRound(opts, serverSalt, serverCrypto, store, local, first, second) == Failed(store, if pull.reply.Failure? then pull.reply.error else ProducerFailed)
    ensures var pull := RoundTrip(opts, serverSalt, serverCrypto, store, map[], first);
      pull.reply.Success? && local.Some? && !opts.force && HasConflict(pull.reply.value, local.value) ==>
        StartRound(opts, serverSalt, serverCrypto, store, local, first, second)
          == Refused(store, set name | name in local.value && ConflictsOn(pull.reply.value, name, local.value[name]))
    ensures var s := StartRound(opts, serverSalt, serverCrypto, store, local, first, second);
      s.Refused? ==> !opts.force && s.names != {} && s.store == store
  {
    var pull := RoundTrip(opts, serverSalt, serverCrypto, store, map[], first);
    EmptyPushKeepsStore(serverSalt, serverCrypto, store, opts.crypto, opts.salt, first.now, first.link);
    var s := StartRound(opts, serverSalt, serverCrypto, store, local, first, second);
    if s.Refused? {
      var name :| name in local.value && ConflictsOn(pull.reply.value, name, local.value[name]);
      assert name in s.names;
    }
  }

  /** With force the conflict check is skipped: a start is never refused, and
      after a successful pull the local records are always pushed. */
  lemma ForceSkipsConflictCheck(opts: Options, serverSalt: string, serverCrypto: Crypto, store: Record,
                                local: Option<Record>, first: Attempt, second: Attempt)
    requires opts.force
    ensures !StartRound(opts, serverSalt, serverCrypto, store, local, first, second).Refused?
    ensures var pull := RoundTrip(opts, serverSalt, serverCrypto, store, map[], first);
      pull.reply.Success? && local.Some? ==>
        var push := RoundTrip(opts, serverSalt, serverCrypto, pull.store, local.value, second);
        StartRound(opts, serverSalt, serverCrypto, store, local, first, second)
          == if push.reply.Success? then Synced(push.store, push.reply.value) else Failed(push.store, push.reply.error)
  {
  }

  /** With the server's salt, a working producer and both round trips
      delivered, a start with no conflict (or forced) leaves the store and the
      cache both equal to the old store merged with the local records. */
  lemma StartRegisters(opts: Options, serverCrypto: Crypto, store: Record, local: Record, first: nat, second: nat)
    requires opts.crypto == serverCrypto
    requires opts.force || !HasConflict(store, local)
    ensures StartRound(opts, opts.salt, serverCrypto, store, Some(local), Attempt(first, Delivered), Attempt(second, Delivered))
      == Synced(Merge(store, local), Merge(store, local))
  {
    DeliveredPushMerges(opts.salt, serverCrypto, store, map[], first);
    MergeEmpty(store);
    DeliveredPushMerges(opts.salt, serverCrypto, store, local, second);
  }

  /** The loop's condition as the source writes it, over all local names. */
  predicate HasConflictAsWritten(remote: Record, local: Record)
  {
    exists name :: name in local && ConflictsAsWritten(remote, name, local[name])
  }

  /** At the level of a whole start: on an empty server, an unforced start for
      `toString` is refused by the test as written, while the corrected start
      this model uses registers the name. */
  lemma {:induction false} InheritedNameStartDiverges(opts: Options, crypto: Crypto, now: nat)
    requires !opts.force && opts.crypto == crypto
    ensures var local := map["toString" := NameRecord("10.0.0.1")];
      && HasConflictAsWritten(map[], local)
      && StartRound(opts, opts.salt, crypto, map[], Some(local), Attempt(now, Delivered), Attempt(now, Delivered))
           == Synced(local, local)
  {
    var local := map["toString" := NameRecord("10.0.0.1")];
    assert "toString" in local && ConflictsAsWritten(map[], "toString", local["toString"]);
    StartRegisters(opts, crypto, map[], local, now, now);
    assert Merge(map[], local) == local;
  }

  /** A tick that fails, in the producer or on the network, is a `Failed`
      round; one whose request is lost or whose producer throws leaves the store as it was. */
  lemma TickFailureKinds(opts: Options, serverSalt: string, serverCrypto: Crypto, store: Record,
                         local: Option<Record>, at: Attempt)
    ensures local.None? ==> TickRound(opts, serverSalt, serverCrypto, store, local, at) == Failed(store, ProducerFailed)
    ensures local.Some? && at.link == RequestLost ==>
      TickRound(opts, serverSalt, serverCrypto, store, local, at) == Failed(store, Transport)
    ensures local.Some? && at.link == ResponseLost ==>
      TickRound(opts, serverSalt, serverCrypto, store, local, at).Failed?
  {
  }

  class Cache {
    const options: Options
    /** The records last received from the server. */
    var records: Record
    /** Every record this cache has pushed, in order. */
    ghost var pushed: seq<Record>

    constructor (options: Options)
      ensures this.options == options && records == map[] && pushed == []
    {
      this.options := options;
      records := map[];
      pushed := [];
    }

    /** `getRecord(name)`: the cached record under the name, nothing when the name is not cached. */
    function GetRecord(name: string): (r: Option<NameRecord>)
      reads this
      ensures r.Some? <==> name in records
      ensures r.Some? ==> r.value == records[name]
    {
      if name in records then Some(records[name]) else None
    }

    /** `updateCache`: sign the record with the current clock reading, post it,
        and return the parsed answer (an error status or a lost round trip is thrown). */
    method UpdateCache(server: Server, record: Record, at: Attempt) returns (reply: Result<Record, SyncError>)
      modifies this`pushed, server
      ensures pushed == old(pushed) + [record]
      ensures var x := RoundTrip(options, server.salt, server.crypto, old(server.store), record, at);
        reply == x.reply && server.store == x.store
    {
      pushed := pushed + [record];
      var req := SignedRequest(options.crypto, options.salt, record, at.now);
      if at.link == RequestLost {
        return Failure(Transport);
      }
      var resp := server.Handle(req);
      if at.link == ResponseLost {
        return Failure(Transport);
      }
      reply := ReplyOf(resp);
    }

    /** `start()`. `local` is what `execute()` returns (None when it throws);
        `first` and `second` are the two `updateCache` calls. */
    method Start(server: Server, local: Option<Record>, first: Attempt, second: Attempt)
      returns (r: Outcome<SyncError>)
      modifies this, server
      ensures var s := StartRound(options, server.salt, server.crypto, old(server.store), local, first, second);
        && server.store == s.store
        && (s.Synced? ==> r == Pass && records == s.records)
        && (s.Failed? ==> r == Fail(s.error) && records == old(records))
        && (s.Refused? ==> r.Fail? && r.error.Conflict? && r.error.name in s.names && records == old(records))
      // The first push sends the empty record; the second, when made, the producer's output.
      ensures var pull := RoundTrip(options, server.salt, server.crypto, old(server.store), map[], first);
        pushed == old(pushed) + [map[]] +
          if pull.reply.Success? && local.Some? && (options.force || !HasConflict(pull.reply.value, local.value))
          then [local.value] else []
    {
      var fromServer := UpdateCache(server, map[], first);
      if fromServer.Failure? {
        return Fail(fromServer.error);
      }
      if local.None? {
        return Fail(ProducerFailed);
      }
      var fromClient := local.value;
      if !options.force {
        var clash := FindConflict(fromServer.value, fromClient);
        if clash.Some? {
          return Fail(Conflict(clash.value));
        }
      }
      var reply := UpdateCache(server, fromClient, second);
      if reply.Failure? {
        return Fail(reply.error);
      }
      records := reply.value;
      return Pass;
    }

    /** One tick of the refresh timer: on success the answer replaces the cache;
        a failure is logged (returned) and the cache is kept. */
    method Tick(server: Server, local: Option<Record>, at: Attempt) returns (logged: Option<SyncError>)
      modifies this, server
      ensures var t := TickRound(options, server.salt, server.crypto, old(server.store), local, at);
        && server.store == t.store
        && (t.Synced? ==> logged == None && records == t.records)
        && (t.Failed? ==> logged == Some(t.error) && records == old(records))
      ensures pushed == old(pushed) + if local.Some? then [local.value] else []
    {
      if local.None? {
        return Some(ProducerFailed);
      }
      var reply := UpdateCache(server, local.value, at);
      if reply.Failure? {
        return Some(reply.error);
      }
      records := reply.value;
      return None;
    }
  }
}
