/** Whole-system runs of the model: two clients registering the same name
    against one server, and a refresh tick whose request is lost. */
module Scenarios {
  import opened Wrappers
  import opened Protocol
  import opened Store
  import opened Sync
  import opened Client

  /** An empty server; client A registers `svc.local` at 192.168.1.10; client B,
      unaware of A, asks for 192.168.1.20 and is refused with a conflict that
      leaves the store alone; B retries with `--force` and wins. */
  method TwoClientsOneName(crypto: Crypto) returns (refused: Result<Cache, ClientError>, afterRefusal: Record, finalStore: Record)
    ensures refused == Failure(StartFailed(Conflict("svc.local")))
    ensures afterRefusal == map["svc.local" := NameRecord("192.168.1.10")]
    ensures finalStore == map["svc.local" := NameRecord("192.168.1.20")]
  {
    var booted := ServerMain(Some("8676"), Some("secret"), None, crypto);
    var server := booted.value;
    var names := Some(["svc.local"]);
    var url := "http://ns:8676";
    var ok := Attempt(1, Delivered);
    var taken := map["svc.local" := NameRecord("192.168.1.10")];
    var wanted := map["svc.local" := NameRecord("192.168.1.20")];
    assert ChooseProducer(names) == ForNames(["svc.local"]);
    assert (map n | n in ["svc.local"] && n != PrototypeKey :: NameRecord("192.168.1.10")) == taken;
    assert (map n | n in ["svc.local"] && n != PrototypeKey :: NameRecord("192.168.1.20")) == wanted;
    assert Produced(ChooseProducer(names), Some("192.168.1.10")) == Some(taken);
    assert Produced(ChooseProducer(names), Some("192.168.1.20")) == Some(wanted);

    StartRegisters(Options("secret", url, RefreshMs, false, crypto), crypto, map[], taken, 1, 1);
    var a := ClientMain(server, Some("ns"), Some("secret"), Some("8676"), names, false,
                        crypto, Some("192.168.1.10"), ok, ok);
    assert server.store == taken;

    var opts := Options("secret", url, RefreshMs, false, crypto);
    DeliveredPushMerges("secret", crypto, taken, map[], 1);
    MergeEmpty(taken);
    assert HasConflict(taken, wanted) by {
      assert "svc.local" in wanted && ConflictsOn(taken, "svc.local", wanted["svc.local"]);
    }
    ConflictRefusesStart(opts, "secret", crypto, taken, Some(wanted), ok, ok);
    assert (set name | name in wanted && ConflictsOn(taken, name, wanted[name])) == {"svc.local"};
    refused := ClientMain(server, Some("ns"), Some("secret"), Some("8676"), names, false,
                          crypto, Some("192.168.1.20"), ok, ok);
    afterRefusal := server.store;

    StartRegisters(Options("secret", url, RefreshMs, true, crypto), crypto, taken, wanted, 1, 1);
    var forced := ClientMain(server, Some("ns"), Some("secret"), Some("8676"), names, true,
                             crypto, Some("192.168.1.20"), ok, ok);
    assert Merge(taken, wanted) == wanted;
    finalStore := server.store;
  }

  /** After a start that caches `bar`, a tick whose request is lost keeps
      answering `bar` from the cache, and `baz` stays unknown. */
  method LostTickKeepsCache(crypto: Crypto) returns (before: Option<NameRecord>, after: Option<NameRecord>, missing: Option<NameRecord>)
    ensures before == Some(NameRecord("10.0.0.5")) && after == before && missing == None
  {
    var bar := map["bar" := NameRecord("10.0.0.5")];
    var server := new Server("secret", crypto, bar);
    var opts := Options("secret", "http://ns:8676", RefreshMs, false, crypto);
    var cache := new Cache(opts);
    StartRegisters(opts, crypto, bar, map[], 1, 1);
    MergeEmpty(bar);
    var started := cache.Start(server, Some(map[]), Attempt(1, Delivered), Attempt(1, Delivered));
    before := cache.GetRecord("bar");
    var logged := cache.Tick(server, Some(map[]), Attempt(2, RequestLost));
    after := cache.GetRecord("bar");
    missing := cache.GetRecord("baz");
  }
}
