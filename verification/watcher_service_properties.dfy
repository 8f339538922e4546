/**
 * What the `WatcherService` poll loop guarantees over a whole run: the trace
 * only grows, a processed or `_`-prefixed file is never downloaded again, a
 * name is recorded only after its order was stored and the file renamed,
 * unprocessed files are downloaded once each in listing order, and there is
 * one listing per poll and one reconnect per failed listing.
 */
module FtpWatcherProperties {
  import opened Wrappers
  import opened JsString
  import opened Types
  import opened FtpWatcher
  import OrderDogParser
  import opened Seqs

  predicate IsList(c: Call) { c.List? }
  predicate IsAccess(c: Call) { c.Access? }
  predicate IsClose(c: Call) { c.Close? }

  /** The names downloaded, in call order. */
  function Downloads(calls: seq<Call>): (r: seq<string>)
    ensures forall n :: n in r <==> Download(n) in calls
  {
    if calls == [] then []
    else (if calls[0].Download? then [calls[0].name] else []) + Downloads(calls[1..])
  }

  lemma {:induction false} DownloadsAppend(a: seq<Call>, b: seq<Call>)
    ensures Downloads(a + b) == Downloads(a) + Downloads(b)
  {
    if a == [] {
      assert a + b == b;
    } else {
      assert (a + b)[1..] == a[1..] + b;
      DownloadsAppend(a[1..], b);
    }
  }

  /** The names of the listed entries, in listing order. */
  function Names(entries: seq<Entry>): (r: seq<string>)
    ensures |r| == |entries|
    ensures forall i :: 0 <= i < |entries| ==> r[i] == entries[i].name
  {
    if entries == [] then [] else [entries[0].name] + Names(entries[1..])
  }

  /** Only the calls `processFile` makes: downloads, `kv.set` and renames. */
  predicate OnlyFileCalls(calls: seq<Call>) {
    forall k :: 0 <= k < |calls| ==> calls[k].Download? || calls[k].Store? || calls[k].Rename?
  }

  /** The cycle's listing returned `x`, and processing it met success at every step. */
  predicate SucceededIn(c: Cycle, x: string) {
    c.listing.Listed?
    && exists j :: 0 <= j < |c.listing.entries| && c.listing.entries[j].name == x && Succeeds(c.listing.entries[j].outcome)
  }

  /** Whether the script contains a request to stop. */
  predicate Stops(script: seq<Cycle>) {
    exists i :: 0 <= i < |script| && script[i].stopRequested
  }

  /** The number of polls the loop makes: the cycles up to and including the first stop. */
  function CyclesUntilStop(script: seq<Cycle>): (r: nat)
    ensures r <= |script|
  {
    if script == [] then 0
    else 1 + if script[0].stopRequested then 0 else CyclesUntilStop(script[1..])
  }

  /** The failed listings among the cycles the loop runs. */
  function FailuresUntilStop(script: seq<Cycle>): (r: nat)
    ensures r <= CyclesUntilStop(script)
  {
    if script == [] then 0
    else
      (if script[0].listing.ListFailed? then 1 else 0)
      + if script[0].stopRequested then 0 else FailuresUntilStop(script[1..])
  }

  // ------------------------------------------------------------ one file

  /**
   * `processFile` downloads the file first; after that it only stores and
   * renames, and when every step succeeds it made exactly three calls: the
   * download, `kv.set` under the parsed PO number, and the rename to `_` + name.
   */
  lemma FileCallsShape(name: string, o: FileOutcome)
    ensures |FileCalls(name, o)| >= 1 && FileCalls(name, o)[0] == Download(name)
    ensures OnlyFileCalls(FileCalls(name, o))
    ensures Downloads(FileCalls(name, o)) == [name]
    ensures Succeeds(o) ==>
      var po := OrderDogParser.Parse(o.download.value, OrderDogParser.Default).value;
      FileCalls(name, o) == [Download(name), Store(po.header.poNumber, po), Rename(name, "_" + name)]
  {
    if o.download.Some? {
      var parsed := OrderDogParser.Parse(o.download.value, OrderDogParser.Default);
      ParsedCallsShape(name, parsed, o.stored);
      TraceStartsWithDownload(name, ParsedCalls(name, parsed, o.stored));
    } else {
      TraceStartsWithDownload(name, []);
    }
  }

  /** After the download, `processFile` only stores and renames. */
  lemma ParsedCallsShape(name: string, parsed: Result<PurchaseOrder, OrderDogParser.ParseError>, stored: bool)
    ensures forall k :: 0 <= k < |ParsedCalls(name, parsed, stored)| ==>
      ParsedCalls(name, parsed, stored)[k].Store? || ParsedCalls(name, parsed, stored)[k].Rename?
    ensures parsed.Success? && stored ==>
      ParsedCalls(name, parsed, stored) == [Store(parsed.value.header.poNumber, parsed.value), Rename(name, "_" + name)]
  {
  }

  lemma TraceStartsWithDownload(name: string, tail: seq<Call>)
    requires forall k :: 0 <= k < |tail| ==> tail[k].Store? || tail[k].Rename?
    ensures ([Download(name)] + tail)[0] == Download(name)
    ensures OnlyFileCalls([Download(name)] + tail)
    ensures Downloads([Download(name)] + tail) == [name]
  {
    assert Downloads([Download(name)]) == [name] + Downloads([]);
    DownloadsAppend([Download(name)], tail);
  }

  /**
   * One visit from an empty trace makes no call when the name is skipped and
   * the file's calls otherwise; it records at most that name, and only when
   * it is not `_`-prefixed, every step succeeded and the rename is in the trace.
   */
  lemma VisitShape(p: set<string>, e: Entry)
    ensures p <= Visit(State(p, []), e).processed <= p + {e.name}
    ensures OnlyFileCalls(Visit(State(p, []), e).calls)
    ensures Downloads(Visit(State(p, []), e).calls) == if Skipped(p, e.name) then [] else [e.name]
    ensures e.name in Visit(State(p, []), e).processed - p ==>
      !StartsWith(e.name, '_') && Succeeds(e.outcome) && Rename(e.name, "_" + e.name) in Visit(State(p, []), e).calls
  {
    if !Skipped(p, e.name) {
      FileCallsShape(e.name, e.outcome);
      assert [] + FileCalls(e.name, e.outcome) == FileCalls(e.name, e.outcome);
    }
  }

  // ------------------------------------------------------------ the trace only grows

  /** A visit appends its calls after whatever the trace already held. */
  lemma VisitAppends(p: set<string>, c: seq<Call>, e: Entry)
    ensures Visit(State(p, c), e) == State(Visit(State(p, []), e).processed, c + Visit(State(p, []), e).calls)
  {
    assert [] + FileCalls(e.name, e.outcome) == FileCalls(e.name, e.outcome);
    assert c + [] == c;
  }

  /** What a listing run does to the processed set does not depend on the trace, and it only appends. */
  lemma {:induction false} ListingRunAppends(p: set<string>, c: seq<Call>, entries: seq<Entry>)
    ensures ListingRun(State(p, c), entries)
         == State(ListingRun(State(p, []), entries).processed, c + ListingRun(State(p, []), entries).calls)
    decreases entries
  {
    if entries == [] {
      assert c + [] == c;
    } else {
      var v := Visit(State(p, []), entries[0]);
      VisitAppends(p, c, entries[0]);
      ListingRunAppends(v.processed, c + v.calls, entries[1..]);
      ListingRunAppends(v.processed, v.calls, entries[1..]);
      AppendAssoc(c, v.calls, ListingRun(State(v.processed, []), entries[1..]).calls);
    }
  }

  /** One poll from an empty trace: the listing call, then the listing's or the reconnect's calls. */
  lemma CycleRunFromEmpty(config: FtpConfig, p: set<string>, cycle: Cycle)
    ensures cycle.listing.Listed? ==>
      CycleRun(config, State(p, []), cycle)
        == State(ListingRun(State(p, []), cycle.listing.entries).processed,
                 [List] + ListingRun(State(p, []), cycle.listing.entries).calls)
    ensures cycle.listing.ListFailed? ==>
      CycleRun(config, State(p, []), cycle) == State(p, [List] + ConnectCalls(config, cycle.listing.reconnect))
  {
    assert [] + [List] == [List];
    if cycle.listing.Listed? {
      ListingRunAppends(p, [List], cycle.listing.entries);
    }
  }

  lemma CycleRunAppends(config: FtpConfig, p: set<string>, c: seq<Call>, cycle: Cycle)
    ensures CycleRun(config, State(p, c), cycle)
         == State(CycleRun(config, State(p, []), cycle).processed, c + CycleRun(config, State(p, []), cycle).calls)
  {
    CycleRunFromEmpty(config, p, cycle);
    match cycle.listing
    case Listed(entries) =>
      ListingRunAppends(p, c + [List], entries);
      AppendAssoc(c, [List], ListingRun(State(p, []), entries).calls);
    case ListFailed(o) =>
      AppendAssoc(c, [List], ConnectCalls(config, o));
  }

  /** A run appends its calls to the trace it starts with. */
  lemma {:induction false} RunAppends(config: FtpConfig, p: set<string>, c: seq<Call>, script: seq<Cycle>)
    ensures Run(config, State(p, c), script)
         == State(Run(config, State(p, []), script).processed, c + Run(config, State(p, []), script).calls)
    decreases script
  {
    if script == [] {
      assert c + [] == c;
    } else {
      var next := CycleRun(config, State(p, []), script[0]);
      CycleRunAppends(config, p, c, script[0]);
      if script[0].stopRequested {
        AppendAssoc(c, next.calls, [Close]);
      } else {
        RunAppends(config, next.processed, c + next.calls, script[1..]);
        RunAppends(config, next.processed, next.calls, script[1..]);
        AppendAssoc(c, next.calls, Run(config, State(next.processed, []), script[1..]).calls);
      }
    }
  }

  /** The processed set only grows. */
  lemma {:induction false} ListingRunGrows(st: State, entries: seq<Entry>)
    ensures st.processed <= ListingRun(st, entries).processed
    decreases entries
  {
    if entries != [] {
      ListingRunGrows(Visit(st, entries[0]), entries[1..]);
    }
  }

  lemma {:induction false} RunGrows(config: FtpConfig, st: State, script: seq<Cycle>)
    ensures st.processed <= Run(config, st, script).processed
    ensures st.calls <= Run(config, st, script).calls
    decreases script
  {
    RunAppends(config, st.processed, st.calls, script);
    if script != [] {
      var next := CycleRun(config, st, script[0]);
      match script[0].listing {
        case Listed(entries) => ListingRunGrows(State(st.processed, st.calls + [List]), entries);
        case ListFailed(_) =>
      }
      if !script[0].stopRequested {
        RunGrows(config, next, script[1..]);
      }
    }
  }

  // ------------------------------------------------------------ the skip rule

  /** Within one listing, a name skipped at the start is never downloaded. */
  lemma {:induction false} ListingSkipsSkipped(p: set<string>, entries: seq<Entry>, n: string)
    requires Skipped(p, n)
    ensures Download(n) !in ListingRun(State(p, []), entries).calls
    decreases entries
  {
    if entries != [] {
      var e := entries[0];
      var v := Visit(State(p, []), e);
      VisitShape(p, e);
      ListingRunAppends(v.processed, v.calls, entries[1..]);
      ListingSkipsSkipped(v.processed, entries[1..], n);
      assert n !in Downloads(v.calls);
    }
  }

  /**
   * The skip rule over the whole run: a file that was processed, or whose
   * name begins with `_`, is never downloaded again.
   */
  lemma {:induction false} SkippedNeverDownloaded(config: FtpConfig, p: set<string>, script: seq<Cycle>, n: string)
    requires Skipped(p, n)
    ensures Download(n) !in Run(config, State(p, []), script).calls
    decreases script
  {
    if script != [] {
      var next := CycleRun(config, State(p, []), script[0]);
      CycleRunFromEmpty(config, p, script[0]);
      match script[0].listing {
        case Listed(entries) =>
          ListingSkipsSkipped(p, entries, n);
          ListingRunGrows(State(p, []), entries);
        case ListFailed(_) =>
      }
      assert Download(n) !in next.calls && p <= next.processed;
      if !script[0].stopRequested {
        RunAppends(config, next.processed, next.calls, script[1..]);
        SkippedNeverDownloaded(config, next.processed, script[1..], n);
      }
    }
  }

  // ------------------------------------------------------------ what gets recorded

  /** A name recorded during a listing was listed, fully succeeded, and was renamed. */
  lemma {:induction false} ListingRecordsOnlySuccess(p: set<string>, entries: seq<Entry>, x: string)
    requires x in ListingRun(State(p, []), entries).processed && x !in p
    ensures exists i :: 0 <= i < |entries| && entries[i].name == x && Succeeds(entries[i].outcome)
    ensures !StartsWith(x, '_')
    ensures Rename(x, "_" + x) in ListingRun(State(p, []), entries).calls
    decreases entries
  {
    var e := entries[0];
    var v := Visit(State(p, []), e);
    VisitShape(p, e);
    ListingRunAppends(v.processed, v.calls, entries[1..]);
    if x in v.processed {
      assert x == e.name;
    } else {
      ListingRecordsOnlySuccess(v.processed, entries[1..], x);
      var i :| 0 <= i < |entries[1..]| && entries[1..][i].name == x && Succeeds(entries[1..][i].outcome);
      assert entries[i + 1].name == x && Succeeds(entries[i + 1].outcome);
    }
  }

  /**
   * Over the whole run, a name enters the processed set only if some listing
   * returned it, its download, parse, `kv.set` and rename all succeeded, it
   * does not begin with `_`, and its rename to `_` + name is in the trace.
   */
  lemma {:induction false} RecordsOnlySuccess(config: FtpConfig, p: set<string>, script: seq<Cycle>, x: string)
    requires x in Run(config, State(p, []), script).processed && x !in p
    ensures exists i :: 0 <= i < |script| && SucceededIn(script[i], x)
    ensures !StartsWith(x, '_')
    ensures Rename(x, "_" + x) in Run(config, State(p, []), script).calls
    decreases script
  {
    var next := CycleRun(config, State(p, []), script[0]);
    if script[0].stopRequested {
      assert x in next.processed;
    } else {
      RunAppends(config, next.processed, next.calls, script[1..]);
    }
    CycleRunFromEmpty(config, p, script[0]);
    match script[0].listing {
      case Listed(entries) =>
        if x in next.processed {
          ListingRecordsOnlySuccess(p, entries, x);
          assert SucceededIn(script[0], x);
          assert Rename(x, "_" + x) in next.calls;
          return;
        }
      case ListFailed(_) =>
        assert next.processed == p;
    }
    RecordsOnlySuccess(config, next.processed, script[1..], x);
    var i :| 0 <= i < |script[1..]| && SucceededIn(script[1..][i], x);
    assert script[i + 1] == script[1..][i];
  }

  // ------------------------------------------------------------ download order

  /**
   * A listing of distinct names none of which is skipped downloads every
   * listed file exactly once, in listing order, whatever each one meets.
   */
  lemma {:induction false} ListingDownloadsInOrder(p: set<string>, entries: seq<Entry>)
    requires forall i, j :: 0 <= i < j < |entries| ==> entries[i].name != entries[j].name
    requires forall i :: 0 <= i < |entries| ==> !Skipped(p, entries[i].name)
    ensures Downloads(ListingRun(State(p, []), entries).calls) == Names(entries)
    decreases entries
  {
    if entries != [] {
      var e := entries[0];
      var tail := entries[1..];
      var v := Visit(State(p, []), e);
      var rest := ListingRun(State(v.processed, []), tail);
      assert Downloads(v.calls) == [e.name] && v.processed <= p + {e.name} by {
        VisitShape(p, e);
      }
      assert Downloads(rest.calls) == Names(tail) by {
        forall i | 0 <= i < |tail|
          ensures !Skipped(v.processed, tail[i].name)
        {
          assert tail[i] == entries[i + 1];
        }
        ListingDownloadsInOrder(v.processed, tail);
      }
      assert ListingRun(State(p, []), entries).calls == v.calls + rest.calls by {
        ListingRunAppends(v.processed, v.calls, tail);
      }
      DownloadsAppend(v.calls, rest.calls);
    }
  }

  // ------------------------------------------------------------ polls and reconnects

  /** A listing makes no poll, reconnect or close calls. */
  lemma {:induction false} ListingOnlyFileCalls(p: set<string>, entries: seq<Entry>)
    ensures OnlyFileCalls(ListingRun(State(p, []), entries).calls)
    decreases entries
  {
    if entries != [] {
      var e := entries[0];
      var v := Visit(State(p, []), e);
      VisitShape(p, e);
      ListingOnlyFileCalls(v.processed, entries[1..]);
      ListingRunAppends(v.processed, v.calls, entries[1..]);
    }
  }

  /** One poll lists once, reconnects once exactly when the listing failed, and never closes. */
  lemma CycleCounts(config: FtpConfig, p: set<string>, cycle: Cycle)
    ensures Count(CycleRun(config, State(p, []), cycle).calls, IsList) == 1
    ensures Count(CycleRun(config, State(p, []), cycle).calls, IsAccess) == if cycle.listing.ListFailed? then 1 else 0
    ensures Count(CycleRun(config, State(p, []), cycle).calls, IsClose) == 0
  {
    CycleRunFromEmpty(config, p, cycle);
    match cycle.listing
    case Listed(entries) => ListedCounts(p, entries);
    case ListFailed(o) => ReconnectCounts(config, o);
  }

  /** A listed poll: the listing call, then only file calls. */
  lemma ListedCounts(p: set<string>, entries: seq<Entry>)
    ensures var calls := [List] + ListingRun(State(p, []), entries).calls;
      Count(calls, IsList) == 1 && Count(calls, IsAccess) == 0 && Count(calls, IsClose) == 0
  {
    var rest := ListingRun(State(p, []), entries).calls;
    ListingOnlyFileCalls(p, entries);
    CountAppend([List], rest, IsList);
    CountAppend([List], rest, IsAccess);
    CountAppend([List], rest, IsClose);
  }

  /** A failed listing: the listing call, then one reconnect attempt. */
  lemma ReconnectCounts(config: FtpConfig, o: ConnectOutcome)
    ensures var calls := [List] + ConnectCalls(config, o);
      Count(calls, IsList) == 1 && Count(calls, IsAccess) == 1 && Count(calls, IsClose) == 0
  {
    var cd: seq<Call> := if o.accessOk then [Cd(config.directory)] else [];
    var rest := ConnectCalls(config, o);
    CountAppend([Access(config.host, config.port, config.username, config.password)], cd, IsAccess);
    CountAppend([List], rest, IsList);
    CountAppend([List], rest, IsAccess);
    CountAppend([List], rest, IsClose);
  }

  /**
   * The loop lists once per poll up to and including the cycle in which
   * `stop` is called, tries one reconnect per failed listing, and closes the
   * connection once exactly when it is stopped.
   */
  lemma PollsAndReconnects(config: FtpConfig, p: set<string>, script: seq<Cycle>)
    ensures Count(Run(config, State(p, []), script).calls, IsList) == CyclesUntilStop(script)
    ensures Count(Run(config, State(p, []), script).calls, IsAccess) == FailuresUntilStop(script)
    ensures Count(Run(config, State(p, []), script).calls, IsClose) == if Stops(script) then 1 else 0
  {
    RunLists(config, p, script);
    RunReconnects(config, p, script);
    RunCloses(config, p, script);
  }

  /** The run's calls: the first poll's, then the close or the rest of the run. */
  lemma RunSplits(config: FtpConfig, p: set<string>, script: seq<Cycle>)
    requires script != []
    ensures var next := CycleRun(config, State(p, []), script[0]);
      Run(config, State(p, []), script).calls
        == next.calls + if script[0].stopRequested then [Close] else Run(config, State(next.processed, []), script[1..]).calls
  {
    var next := CycleRun(config, State(p, []), script[0]);
    if !script[0].stopRequested {
      RunAppends(config, next.processed, next.calls, script[1..]);
    }
  }

  lemma {:induction false} RunLists(config: FtpConfig, p: set<string>, script: seq<Cycle>)
    ensures Count(Run(config, State(p, []), script).calls, IsList) == CyclesUntilStop(script)
    decreases script
  {
    if script != [] {
      var next := CycleRun(config, State(p, []), script[0]);
      var tail := if script[0].stopRequested then [Close] else Run(config, State(next.processed, []), script[1..]).calls;
      RunSplits(config, p, script);
      CycleCounts(config, p, script[0]);
      if !script[0].stopRequested {
        RunLists(config, next.processed, script[1..]);
      }
      CountAppend(next.calls, tail, IsList);
    }
  }

  lemma {:induction false} RunReconnects(config: FtpConfig, p: set<string>, script: seq<Cycle>)
    ensures Count(Run(config, State(p, []), script).calls, IsAccess) == FailuresUntilStop(script)
    decreases script
  {
    if script != [] {
      var next := CycleRun(config, State(p, []), script[0]);
      var tail := if script[0].stopRequested then [Close] else Run(config, State(next.processed, []), script[1..]).calls;
      RunSplits(config, p, script);
      CycleCounts(config, p, script[0]);
      if !script[0].stopRequested {
        RunReconnects(config, next.processed, script[1..]);
      }
      CountAppend(next.calls, tail, IsAccess);
    }
  }

  lemma {:induction false} RunCloses(config: FtpConfig, p: set<string>, script: seq<Cycle>)
    ensures Count(Run(config, State(p, []), script).calls, IsClose) == if Stops(script) then 1 else 0
    decreases script
  {
    if script != [] {
      var next := CycleRun(config, State(p, []), script[0]);
      var tail := if script[0].stopRequested then [Close] else Run(config, State(next.processed, []), script[1..]).calls;
      RunSplits(config, p, script);
      CycleCounts(config, p, script[0]);
      if script[0].stopRequested {
        assert Stops(script);
      } else {
        RunCloses(config, next.processed, script[1..]);
        StopsInTail(script);
      }
      CountAppend(next.calls, tail, IsClose);
    }
  }

  /** A loop that is stopped ends with the close. */
  lemma {:induction false} StoppedRunEndsWithClose(config: FtpConfig, p: set<string>, script: seq<Cycle>)
    requires Stops(script)
    ensures |Run(config, State(p, []), script).calls| > 0
    ensures Run(config, State(p, []), script).calls[|Run(config, State(p, []), script).calls| - 1] == Close
    decreases script
  {
    var next := CycleRun(config, State(p, []), script[0]);
    RunSplits(config, p, script);
    if !script[0].stopRequested {
      StopsInTail(script);
      StoppedRunEndsWithClose(config, next.processed, script[1..]);
    }
  }

  lemma StopsInTail(script: seq<Cycle>)
    requires script != [] && !script[0].stopRequested
    ensures Stops(script) <==> Stops(script[1..])
  {
    if Stops(script) {
      var i :| 0 <= i < |script| && script[i].stopRequested;
      assert script[1..][i - 1].stopRequested;
    }
    if Stops(script[1..]) {
      var i :| 0 <= i < |script[1..]| && script[1..][i].stopRequested;
      assert script[i + 1].stopRequested;
    }
  }
}
