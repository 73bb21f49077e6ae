/**
 * The server list of servers.json and the `backup_now` command, which backs
 * up every server in turn and remembers each server's working path.
 */
module Registry {
  import opened Wrappers
  import opened Panel

  /** A successful backup must be written back when the record had no path or a different one. */
  predicate NeedsSave(s: Server, r: BackupResult) {
    r.Success? && (s.dbPath.None? || s.dbPath.value != r.path)
  }

  /** The record after one backup: a success stores the working path; nothing else ever changes. */
  function Memoise(s: Server, r: BackupResult): (m: Server)
    ensures m.name == s.name && m.url == s.url && m.username == s.username && m.password == s.password
    ensures r.Success? ==> m.dbPath == Some(r.path)
    ensures r.Failure? ==> m == s
    ensures m != s <==> NeedsSave(s, r)
  {
    if NeedsSave(s, r) then s.(dbPath := Some(r.path)) else s
  }

  /** How many times `backup_now` writes servers.json for these records and results. */
  function SaveCount(ss: seq<Server>, rs: seq<BackupResult>): (n: nat)
    requires |ss| == |rs|
    ensures n <= |ss|
    decreases |ss|
  {
    if ss == [] then 0
    else SaveCount(ss[..|ss| - 1], rs[..|rs| - 1]) + (if NeedsSave(ss[|ss| - 1], rs[|rs| - 1]) then 1 else 0)
  }

  /** `backup_now` writes nothing exactly when no result brings a new path. */
  lemma {:induction false} SaveCountZero(ss: seq<Server>, rs: seq<BackupResult>)
    requires |ss| == |rs|
    ensures SaveCount(ss, rs) == 0 <==> forall i :: 0 <= i < |ss| ==> !NeedsSave(ss[i], rs[i])
    decreases |ss|
  {
    if ss != [] {
      var n := |ss| - 1;
      SaveCountZero(ss[..n], rs[..n]);
      assert forall i :: 0 <= i < n ==> ss[..n][i] == ss[i] && rs[..n][i] == rs[i];
    }
  }

  lemma SaveCountStep(ss: seq<Server>, rs: seq<BackupResult>, s: Server, r: BackupResult)
    requires |ss| == |rs|
    ensures SaveCount(ss + [s], rs + [r]) == SaveCount(ss, rs) + (if NeedsSave(s, r) then 1 else 0)
  {
    assert (ss + [s])[..|ss|] == ss;
    assert (rs + [r])[..|rs|] == rs;
  }

  /** The results of backing up `ss` in order, server `i` through `nets[i]`. */
  function Results(ss: seq<Server>, nets: seq<Network>): (rs: seq<BackupResult>)
    requires |ss| <= |nets|
    ensures |rs| == |ss|
    decreases |ss|
  {
    if ss == [] then []
    else Results(ss[..|ss| - 1], nets) + [Attempt(ss[|ss| - 1], nets[|ss| - 1]).result]
  }

  /** Result `i` is the attempt for server `i` alone: no server's failure affects another. */
  lemma {:induction false} ResultsAt(ss: seq<Server>, nets: seq<Network>, i: nat)
    requires |ss| <= |nets| && i < |ss|
    ensures Results(ss, nets)[i] == Attempt(ss[i], nets[i]).result
    decreases |ss|
  {
    var n := |ss| - 1;
    if i < n {
      ResultsAt(ss[..n], nets, i);
    }
  }

  /** The records after memoising each result into its own record. */
  function MemoiseAll(ss: seq<Server>, rs: seq<BackupResult>): (ms: seq<Server>)
    requires |ss| == |rs|
    ensures |ms| == |ss|
    decreases |ss|
  {
    if ss == [] then []
    else MemoiseAll(ss[..|ss| - 1], rs[..|rs| - 1]) + [Memoise(ss[|ss| - 1], rs[|rs| - 1])]
  }

  lemma MemoiseAllStep(ss: seq<Server>, rs: seq<BackupResult>, s: Server, r: BackupResult)
    requires |ss| == |rs|
    ensures MemoiseAll(ss + [s], rs + [r]) == MemoiseAll(ss, rs) + [Memoise(s, r)]
  {
    assert (ss + [s])[..|ss|] == ss;
    assert (rs + [r])[..|rs|] == rs;
  }

  /** Record `i` is memoised from its own result only. */
  lemma {:induction false} MemoiseAllAt(ss: seq<Server>, rs: seq<BackupResult>, i: nat)
    requires |ss| == |rs| && i < |ss|
    ensures MemoiseAll(ss, rs)[i] == Memoise(ss[i], rs[i])
    decreases |ss|
  {
    var n := |ss| - 1;
    if i < n {
      MemoiseAllAt(ss[..n], rs[..n], i);
    }
  }

  /**
   * After a successful backup the path is settled: every later backup of the
   * stored record requests only that path and never needs another save,
   * whatever the panel answers then.
   */
  lemma MemoiseSettles(s: Server, net: Network, later: Network)
    requires Attempt(s, net).result.Success?
    ensures var m := Memoise(s, Attempt(s, net).result);
      m.dbPath == Some(Attempt(s, net).result.path) &&
      (Attempt(m, later).probed == [] || Attempt(m, later).probed == [Attempt(s, net).result.path]) &&
      !NeedsSave(m, Attempt(m, later).result)
  {
    var m := Memoise(s, Attempt(s, net).result);
    SuccessPathIsCandidate(s, net);
    SuccessPathIsCandidate(m, later);
  }

  /** One more server backed up extends the results by its own attempt. */
  lemma ResultsExtend(servers: seq<Server>, nets: seq<Network>, i: nat)
    requires i < |servers| <= |nets|
    ensures Results(servers[..i + 1], nets) == Results(servers[..i], nets) + [Attempt(servers[i], nets[i]).result]
  {
    var longer := servers[..i + 1];
    assert longer[..i] == servers[..i] && longer[i] == servers[i];
  }

  /** Memoising record `i` in place extends the memoised prefix by one record. */
  lemma MemoiseExtend(servers: seq<Server>, i: nat, reports: seq<BackupResult>, result: BackupResult,
                      before: seq<Server>, after: seq<Server>)
    requires i < |servers| && |reports| == i
    requires before == MemoiseAll(servers[..i], reports) + servers[i..]
    requires after == before[i := Memoise(servers[i], result)]
    ensures after == MemoiseAll(servers[..i + 1], reports + [result]) + servers[i + 1..]
  {
    var done := MemoiseAll(servers[..i], reports);
    assert servers[..i + 1] == servers[..i] + [servers[i]];
    MemoiseAllStep(servers[..i], reports, servers[i], result);
    forall k | 0 <= k < |after|
      ensures after[k] == (done + [Memoise(servers[i], result)] + servers[i + 1..])[k]
    {
      if k < i {
        assert after[k] == before[k] == done[k];
      } else if k > i {
        assert after[k] == before[k] == servers[k];
      }
    }
  }

  /** Saving once more exactly when record `i` needs it extends the save count. */
  lemma SaveCountExtend(servers: seq<Server>, i: nat, reports: seq<BackupResult>, result: BackupResult)
    requires i < |servers| && |reports| == i
    ensures SaveCount(servers[..i + 1], reports + [result]) ==
      SaveCount(servers[..i], reports) + (if NeedsSave(servers[i], result) then 1 else 0)
  {
    assert servers[..i + 1] == servers[..i] + [servers[i]];
    SaveCountStep(servers[..i], reports, servers[i], result);
  }

  /** The persisted server list; `saves` counts the writes of servers.json. */
  class ServerStore {
    var persisted: seq<Server>
    var saves: nat

    constructor (initial: seq<Server>)
      ensures persisted == initial && saves == 0
    {
      persisted := initial;
      saves := 0;
    }

    /** `load_servers`. */
    method Load() returns (list: seq<Server>)
      ensures list == persisted
    {
      list := persisted;
    }

    /** `save_servers`: the whole list is written. */
    method Save(list: seq<Server>)
      modifies this
      ensures persisted == list && saves == old(saves) + 1
    {
      persisted := list;
      saves := saves + 1;
    }

    /**
     * One pass of the `backup_now` loop: back up `servers[i]` and, when the
     * success brings a new path, store it in the list; `changed` says that
     * the list must be saved.
     */
    static method BackUpOne(servers: seq<Server>, i: nat, net: Network)
      returns (updated: seq<Server>, result: BackupResult, changed: bool)
      requires i < |servers|
      ensures result == Attempt(servers[i], net).result
      ensures changed == NeedsSave(servers[i], result)
      ensures updated == servers[i := Memoise(servers[i], result)]
      ensures !changed ==> updated == servers
    {
      var server := servers[i];
      ghost var probed: seq<string>;
      result, probed := PerformBackupLogic(server, net);
      updated, changed := servers, false;
      if result.Success? {
        if server.dbPath.None? || server.dbPath.value != result.path {
          updated := servers[i := server.(dbPath := Some(result.path))];
          changed := true;
        }
      }
    }

    /**
     * The `for server in servers` loop of `backup_now`, over the list just
     * loaded: `reports` are the per-server results, in order.
     */
    method BackUpEach(servers: seq<Server>, nets: seq<Network>) returns (reports: seq<BackupResult>)
      requires |nets| == |servers| && persisted == servers
      modifies this
      ensures reports == Results(servers, nets)
      ensures persisted == MemoiseAll(servers, reports)
      ensures saves == old(saves) + SaveCount(servers, reports)
    {
      var list := servers;
      reports := [];
      for i := 0 to |list|
        invariant |list| == |servers| && persisted == list
        invariant reports == Results(servers[..i], nets)
        invariant list == MemoiseAll(servers[..i], reports) + servers[i..]
        invariant saves == old(saves) + SaveCount(servers[..i], reports)
      {
        assert list[i] == servers[i];
        var result, changed;
        ghost var before := list;
        list, result, changed := BackUpOne(list, i, nets[i]);
        if changed {
          Save(list);
        }
        ResultsExtend(servers, nets, i);
        MemoiseExtend(servers, i, reports, result, before, list);
        SaveCountExtend(servers, i, reports, result);
        reports := reports + [result];
      }
      assert servers[..|servers|] == servers;
    }

    /**
     * `backup_now`: back up the servers one after another, server `i` talking
     * to the panel through `nets[i]`. A failure is reported and the loop goes
     * on; a success stores its path and saves when the path is new.
     */
    method BackupNow(authorised: bool, nets: seq<Network>) returns (reports: seq<BackupResult>)
      requires |nets| == |persisted|
      modifies this
      ensures !authorised ==> reports == [] && persisted == old(persisted) && saves == old(saves)
      ensures authorised ==> |reports| == |old(persisted)| && |persisted| == |old(persisted)|
      ensures authorised ==> forall i :: 0 <= i < |reports| ==>
        reports[i] == Attempt(old(persisted)[i], nets[i]).result &&
        persisted[i] == Memoise(old(persisted)[i], reports[i])
      ensures authorised ==> saves == old(saves) + SaveCount(old(persisted), reports)
    {
      if !authorised {
        return [];
      }
      var servers := Load();
      if servers == [] {
        return [];
      }
      reports := BackUpEach(servers, nets);
      forall i | 0 <= i < |reports|
        ensures reports[i] == Attempt(old(persisted)[i], nets[i]).result
        ensures persisted[i] == Memoise(old(persisted)[i], reports[i])
      {
        ResultsAt(servers, nets, i);
        MemoiseAllAt(servers, reports, i);
      }
    }
  }
}
