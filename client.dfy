/** The client command: option checks, the record producer handed to the
    cache, and the rule by which multicast-DNS questions are answered from the cache. */
module Client {
  import opened Wrappers
  import opened Protocol
  import opened Store
  import opened Sync

  /** The cache refresh interval: five minutes, in milliseconds. */
  const RefreshMs: nat := 5 * 60 * 1000

  /** The time-to-live, in seconds, of every answer sent. */
  const AnswerTtl: nat := 300

  /** Which `execute` callback the cache is given. */
  datatype Producer =
    | NoNames                      // no `--name`: always the empty record
    | ForNames(names: seq<string>) // every `--name` bound to the interface address

  /** The test at the head of the producer choice: no names, or an empty list
      of them, selects the empty producer. */
  function ChooseProducer(names: Option<seq<string>>): (p: Producer)
  {
    if names.None? || |names.value| == 0 then NoNames else ForNames(names.value)
  }

  /** The one name that `pre[curr] = ...` does not add as a key: assigning to
      `__proto__` on a plain object replaces the object's prototype. */
  const PrototypeKey := "__proto__"

  /** The `reduce` that binds each name to the interface address: the keys are
      exactly the given names, a repeated name appearing once, less `__proto__`,
      and every value is the interface address. */
  method NamesToRecord(names: seq<string>, ip: string) returns (r: Record)
    ensures r.Keys == (set n | n in names) - {PrototypeKey}
    ensures forall n :: n in r ==> r[n] == NameRecord(ip)
  {
    r := map[];
    var i := 0;
    while i < |names|
      invariant 0 <= i <= |names|
      invariant r.Keys == (set n | n in names[..i]) - {PrototypeKey}
      invariant forall n :: n in r ==> r[n] == NameRecord(ip)
    {
      assert names[..i + 1] == names[..i] + [names[i]];
      if names[i] != PrototypeKey {
        r := r[names[i] := NameRecord(ip)];
      }
      i := i + 1;
    }
    assert names[..i] == names;
  }

  /** What one call of the chosen producer returns. `ip` is the first IPv4
      address of the interface, None when there is none, in which case the
      address lookup throws (None here). */
  function Produced(p: Producer, ip: Option<string>): (r: Option<Record>)
  {
    match p
    case NoNames => Some(map[])
    case ForNames(names) =>
      if ip.None? then None else Some(map n | n in names && n != PrototypeKey :: NameRecord(ip.value))
  }

  /** No names, or an empty list, gives the cache the empty record without
      reading the interface. With names the interface is read, and with an
      address the record is empty only when every name is `__proto__`. */
  lemma {:induction false} EmptyRecordExactlyWithoutNames(names: Option<seq<string>>, ip: Option<string>)
    ensures names.None? || |names.value| == 0 ==> Produced(ChooseProducer(names), ip) == Some(map[])
    ensures ip.None? ==> (Produced(ChooseProducer(names), ip).Some? <==> names.None? || |names.value| == 0)
    ensures ip.Some? ==>
      (Produced(ChooseProducer(names), ip) == Some(map[]) <==>
         names.None? || forall n | n in names.value :: n == PrototypeKey)
  {
    if names.Some? && ip.Some? && exists n :: n in names.value && n != PrototypeKey {
      var n :| n in names.value && n != PrototypeKey;
      assert n in Produced(ChooseProducer(names), ip).value;
    }
  }

  /** One call of the chosen producer: the empty producer never reads the
      interface; the other throws without an address and otherwise binds every
      name but `__proto__`, and only those, to it. */
  method Execute(p: Producer, ip: Option<string>) returns (r: Option<Record>)
    ensures r == Produced(p, ip)
    ensures p.NoNames? ==> r == Some(map[])
    ensures p.ForNames? ==> (r.Some? <==> ip.Some?)
    ensures p.ForNames? && ip.Some? ==>
      && r.Some?
      && r.value.Keys == (set n | n in p.names) - {PrototypeKey}
      && forall n :: n in r.value ==> r.value[n] == NameRecord(ip.value)
  {
    if p.NoNames? {
      return Some(map[]);
    }
    if ip.None? {
      return None;
    }
    var record := NamesToRecord(p.names, ip.value);
    assert record == map n | n in p.names && n != PrototypeKey :: NameRecord(ip.value);
    return Some(record);
  }

  datatype Question = Question(name: string, qtype: string)

  datatype Answer = Answer(name: string, rtype: string, ttl: nat, data: string)

  /** One `respond` call: a packet of answers. */
  datatype Packet = Packet(answers: seq<Answer>)

  /** The packets sent for one question: one answer for a type-A question whose
      name is cached, nothing otherwise. */
  function Respond(q: Question, records: Record): (sent: seq<Packet>)
    ensures |sent| <= 1
    ensures |sent| == 1 <==> q.qtype == "A" && q.name in records
    ensures |sent| == 1 ==> sent[0] == Packet([Answer(q.name, "A", AnswerTtl, records[q.name].address)])
  {
    if q.qtype == "A" && q.name in records then
      [Packet([Answer(q.name, "A", AnswerTtl, records[q.name].address)])]
    else []
  }

  /** An answer as the source builds it, where `data` is the `address` of
      whatever the lookup found: None stands for `undefined`. */
  datatype RawAnswer = RawAnswer(name: string, rtype: string, ttl: nat, data: Option<string>)

  datatype RawPacket = RawPacket(answers: seq<RawAnswer>)

  /** The `respond` calls made for one question as the source writes it: the
      lookup is a property read on a parsed JSON object, so a name the cache lacks
      but that every object inherits (`toString`, `constructor`, ...) is a hit too,
      and `respond` is called with an answer whose `data` is undefined. What
      multicast-dns then does with that argument is not modelled. */
  function RespondAsWritten(q: Question, records: Record): (sent: seq<RawPacket>)
  {
    if q.qtype != "A" then []
    else if q.name in records then [RawPacket([RawAnswer(q.name, "A", AnswerTtl, Some(records[q.name].address))])]
    else if q.name in InheritedNames then [RawPacket([RawAnswer(q.name, "A", AnswerTtl, None)])]
    else []
  }

  /** For a type-A question on `toString`, with `toString` not cached, the source
      calls `respond` with an answer whose `data` is undefined, where the
      corrected rule makes no call. */
  lemma InheritedNameAnsweredAsWritten(records: Record)
    requires "toString" !in records
    ensures RespondAsWritten(Question("toString", "A"), records) == [RawPacket([RawAnswer("toString", "A", AnswerTtl, None)])]
    ensures Respond(Question("toString", "A"), records) == []
  {
  }

  /** The two rules agree on every cached name and on every name that no object
      inherits: the same packets, with the address defined. */
  lemma {:induction false} RespondAgreesExceptInherited(q: Question, records: Record)
    requires q.name in records || q.name !in InheritedNames
    ensures RespondAsWritten(q, records) == [] <==> Respond(q, records) == []
    ensures Respond(q, records) != [] ==>
      var a := Respond(q, records)[0].answers[0];
      RespondAsWritten(q, records) == [RawPacket([RawAnswer(a.name, a.rtype, a.ttl, Some(a.data))])]
  {
  }

  /** The packets sent for a list of questions, in question order. */
  function Responses(questions: seq<Question>, records: Record): (sent: seq<Packet>)
  {
    if questions == [] then []
    else Responses(questions[..|questions| - 1], records) + Respond(questions[|questions| - 1], records)
  }

  /** Every packet sent answers one type-A question of the query with the cached
      address, a single answer with TTL 300. */
  lemma {:induction false} ResponsesSound(questions: seq<Question>, records: Record, p: Packet)
    requires p in Responses(questions, records)
    ensures exists q ::
      && q in questions && q.qtype == "A" && q.name in records
      && p == Packet([Answer(q.name, "A", AnswerTtl, records[q.name].address)])
  {
    var last := questions[|questions| - 1];
    if p in Responses(questions[..|questions| - 1], records) {
      ResponsesSound(questions[..|questions| - 1], records, p);
      var q :|
        && q in questions[..|questions| - 1] && q.qtype == "A" && q.name in records
        && p == Packet([Answer(q.name, "A", AnswerTtl, records[q.name].address)]);
      assert q in questions;
    } else {
      assert p in Respond(last, records);
      assert last in questions;
    }
  }

  /** Every type-A question whose name is cached is answered. */
  lemma {:induction false} ResponsesComplete(questions: seq<Question>, records: Record, q: Question)
    requires q in questions && q.qtype == "A" && q.name in records
    ensures Packet([Answer(q.name, "A", AnswerTtl, records[q.name].address)]) in Responses(questions, records)
  {
    var init := questions[..|questions| - 1];
    if q == questions[|questions| - 1] {
      assert Respond(q, records)[0] == Packet([Answer(q.name, "A", AnswerTtl, records[q.name].address)]);
    } else {
      assert questions == init + [questions[|questions| - 1]];
      assert q in init;
      ResponsesComplete(init, records, q);
    }
  }

  /** The `query` handler: each question is looked up in the cache in turn, and
      each hit sends its own packet. */
  method AnswerQuery(cache: Cache, questions: seq<Question>) returns (sent: seq<Packet>)
    ensures sent == Responses(questions, cache.records)
  {
    sent := [];
    var i := 0;
    while i < |questions|
      invariant 0 <= i <= |questions|
      invariant sent == Responses(questions[..i], cache.records)
    {
      var q := questions[i];
      assert questions[..i + 1][..i] == questions[..i];
      if q.qtype == "A" {
        var record := cache.GetRecord(q.name);
        if record.Some? {
          sent := sent + [Packet([Answer(q.name, "A", AnswerTtl, record.value.address)])];
        }
      }
      i := i + 1;
    }
    assert questions[..i] == questions;
  }

  datatype ClientError =
    | Usage(message: string)   // a required option is missing
    | StartFailed(cause: SyncError)

  /** The client command up to serving queries: `--server`, `--salt` and
      `--port` are required, in that order, and checked before any cache exists;
      then a cache with a five-minute interval is built and started with the
      chosen producer. `ip` is the interface address the producer reads;
      `first` and `second` are start's two pushes. */
  method ClientMain(server: Server, host: Option<string>, salt: Option<string>, port: Option<string>,
                    names: Option<seq<string>>, force: bool, crypto: Crypto, ip: Option<string>,
                    first: Attempt, second: Attempt)
    returns (r: Result<Cache, ClientError>)
    modifies server
    ensures host.None? ==>
      r == Failure(Usage("-s,--server is needed for this commond")) && server.store == old(server.store)
    ensures host.Some? && salt.None? ==>
      r == Failure(Usage("--salt is needed for this commond")) && server.store == old(server.store)
    ensures host.Some? && salt.Some? && port.None? ==>
      r == Failure(Usage("-p,--port is needed for this commond")) && server.store == old(server.store)
    ensures host.Some? && salt.Some? && port.Some? ==>
      var opts := Options(salt.value, "http://" + host.value + ":" + port.value, RefreshMs, force, crypto);
      var s := StartRound(opts, server.salt, server.crypto, old(server.store), Produced(ChooseProducer(names), ip), first, second);
      && server.store == s.store
      && (s.Synced? ==> r.Success? && fresh(r.value) && r.value.options == opts && r.value.records == s.records)
      && (s.Failed? ==> r == Failure(StartFailed(s.error)))
      && (s.Refused? ==> r.Failure? && r.error.StartFailed? && r.error.cause.Conflict? && r.error.cause.name in s.names)
  {
    if host.None? {
      return Failure(Usage("-s,--server is needed for this commond"));
    }
    if salt.None? {
      return Failure(Usage("--salt is needed for this commond"));
    }
    if port.None? {
      return Failure(Usage("-p,--port is needed for this commond"));
    }
    var producer := ChooseProducer(names);
    var cache := new Cache(Options(salt.value, "http://" + host.value + ":" + port.value, RefreshMs, force, crypto));
    var local := Execute(producer, ip);
    var started := cache.Start(server, local, first, second);
    if started.Fail? {
      return Failure(StartFailed(started.error));
    }
    return Success(cache);
  }
}
