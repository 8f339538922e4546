/**
 * `WatcherService`: polls an FTP directory, parses each new X12 850 file
 * with the raw-text parser, stores the order in a key-value store under
 * `['orders', poNumber]`, and renames the file to `_` + name.
 *
 * The FTP server, the file system and the store are not modelled; what
 * they answer is given to each method as an outcome, and every call made
 * to them is recorded in the ghost trace `calls`. The endless poll loop is
 * modelled over a finite script of cycles that ends with a request to stop.
 */
module FtpWatcher {
  import opened Wrappers
  import opened JsString
  import opened Types
  import OrderDogParser
  import opened Seqs

  /**
   * What processing one file meets: the downloaded text (`None` when the
   * temp file, the download or the read fails), whether `kv.set` succeeds,
   * and whether the rename succeeds.
   */
  datatype FileOutcome = FileOutcome(download: Option<string>, stored: bool, renamed: bool)

  /** A listed file name, with what processing it would meet. */
  datatype Entry = Entry(name: string, outcome: FileOutcome)

  /** Whether `ftp.access` and then `ftp.cd` succeed. */
  datatype ConnectOutcome = ConnectOutcome(accessOk: bool, cdOk: bool)

  /** `ftp.list()` returns the entries, or throws and a reconnect is attempted. */
  datatype Listing = Listed(entries: seq<Entry>) | ListFailed(reconnect: ConnectOutcome)

  /** One turn of the poll loop; `stopRequested` is a `stop()` arriving during its wait. */
  datatype Cycle = Cycle(listing: Listing, stopRequested: bool)

  /** Calls made to the FTP client and the store. */
  datatype Call =
    | Access(host: string, port: nat, user: string, password: string)
    | Cd(dir: string)
    | List
    | Download(name: string)
    | Store(poNumber: Option<string>, po: PurchaseOrder)
    | Rename(from: string, to: string)
    | Close

  /** The watcher's processed-file set and the calls made so far. */
  datatype State = State(processed: set<string>, calls: seq<Call>)

  /** The skip rule: already processed, or already renamed with a leading `_`. */
  predicate Skipped(processed: set<string>, name: string) {
    name in processed || StartsWith(name, '_')
  }

  /** Download, parse, `kv.set` and rename all succeed. */
  predicate Succeeds(o: FileOutcome) {
    && o.download.Some?
    && OrderDogParser.Parse(o.download.value, OrderDogParser.Default).Success?
    && o.stored
    && o.renamed
  }

  /** The calls `processFile` makes, stopping at the first failure. */
  function FileCalls(name: string, o: FileOutcome): seq<Call> {
    [Download(name)] +
    if o.download.None? then []
    else ParsedCalls(name, OrderDogParser.Parse(o.download.value, OrderDogParser.Default), o.stored)
  }

  /** The calls after the download: none when parsing failed, else `kv.set` and, if it succeeded, the rename. */
  function ParsedCalls(name: string, parsed: Result<PurchaseOrder, OrderDogParser.ParseError>, stored: bool): seq<Call> {
    match parsed
    case Failure(_) => []
    case Success(po) => [Store(po.header.poNumber, po)] + if stored then [Rename(name, "_" + name)] else []
  }

  /** The state after `processFile(name)`: the name is added only when every step succeeded. */
  function AfterFile(st: State, name: string, o: FileOutcome): State {
    State(if Succeeds(o) then st.processed + {name} else st.processed, st.calls + FileCalls(name, o))
  }

  /** One turn of the `for` loop over the listing. */
  function Visit(st: State, e: Entry): State {
    if Skipped(st.processed, e.name) then st else AfterFile(st, e.name, e.outcome)
  }

  /** The listing processed in order; a failing file does not stop the others. */
  function ListingRun(st: State, entries: seq<Entry>): State
    decreases entries
  {
    if entries == [] then st else ListingRun(Visit(st, entries[0]), entries[1..])
  }

  /** The calls `connect` makes: `cd` is tried only after `access` succeeded. */
  function ConnectCalls(config: FtpConfig, o: ConnectOutcome): seq<Call> {
    [Access(config.host, config.port, config.username, config.password)]
      + if o.accessOk then [Cd(config.directory)] else []
  }

  /** One turn of the poll loop, without the stop. */
  function CycleRun(config: FtpConfig, st: State, c: Cycle): State {
    var listed := State(st.processed, st.calls + [List]);
    match c.listing
    case Listed(entries) => ListingRun(listed, entries)
    case ListFailed(o) => State(listed.processed, listed.calls + ConnectCalls(config, o))
  }

  /** The poll loop over a script, up to the first cycle during which `stop` is called. */
  function Run(config: FtpConfig, st: State, script: seq<Cycle>): State
    decreases script
  {
    if script == [] then st
    else
      var next := CycleRun(config, st, script[0]);
      if script[0].stopRequested then State(next.processed, next.calls + [Close])
      else Run(config, next, script[1..])
  }

  class WatcherService {
    const config: FtpConfig
    var processedFiles: set<string>
    var isRunning: bool
    ghost var calls: seq<Call>

    constructor(config: FtpConfig)
      ensures this.config == config
      ensures processedFiles == {} && !isRunning && calls == []
    {
      this.config := config;
      processedFiles := {};
      isRunning := false;
      calls := [];
    }

    /** `connect()`: `access` with the configured credentials, then `cd` to the directory. */
    method Connect(o: ConnectOutcome) returns (connected: bool)
      modifies this
      ensures connected == (o.accessOk && o.cdOk)
      ensures calls == old(calls) + ConnectCalls(config, o)
      ensures processedFiles == old(processedFiles) && isRunning == old(isRunning)
    {
      calls := calls + [Access(config.host, config.port, config.username, config.password)];
      if !o.accessOk {
        return false;
      }
      calls := calls + [Cd(config.directory)];
      connected := o.cdOk;
    }

    /** `processFile(name)`: every failure is caught, and only full success records the name. */
    method ProcessFile(name: string, o: FileOutcome)
      modifies this
      ensures processedFiles == if Succeeds(o) then old(processedFiles) + {name} else old(processedFiles)
      ensures calls == old(calls) + FileCalls(name, o)
      ensures isRunning == old(isRunning)
    {
      calls := calls + [Download(name)];
      if o.download.None? {
        return;
      }
      AppendAssoc(old(calls), [Download(name)],
        ParsedCalls(name, OrderDogParser.Parse(o.download.value, OrderDogParser.Default), o.stored));
      ParseAndStore(name, o.download.value, o.stored, o.renamed);
    }

    /** The part of `processFile` after the download: parse, then store and rename. */
    method ParseAndStore(name: string, text: string, stored: bool, renamed: bool)
      modifies this
      ensures processedFiles ==
        if OrderDogParser.Parse(text, OrderDogParser.Default).Success? && stored && renamed
        then old(processedFiles) + {name} else old(processedFiles)
      ensures calls == old(calls) + ParsedCalls(name, OrderDogParser.Parse(text, OrderDogParser.Default), stored)
      ensures isRunning == old(isRunning)
    {
      var parsed := OrderDogParser.ParseEDI(text, OrderDogParser.Default);
      StoreParsed(name, parsed, stored, renamed);
    }

    /** `kv.set` of a parsed order, the rename, then recording the name; a failed parse does nothing. */
    method StoreParsed(name: string, parsed: Result<PurchaseOrder, OrderDogParser.ParseError>, stored: bool, renamed: bool)
      modifies this
      ensures processedFiles == if parsed.Success? && stored && renamed then old(processedFiles) + {name} else old(processedFiles)
      ensures calls == old(calls) + ParsedCalls(name, parsed, stored)
      ensures isRunning == old(isRunning)
    {
      if parsed.Failure? {
        return;
      }
      var po := parsed.value;
      AppendAssoc(calls, [Store(po.header.poNumber, po)], if stored then [Rename(name, "_" + name)] else []);
      calls := calls + [Store(po.header.poNumber, po)];
      if !stored {
        return;
      }
      calls := calls + [Rename(name, "_" + name)];
      if !renamed {
        return;
      }
      processedFiles := processedFiles + {name};
    }

    /** `start()`: polls until `stop` is called; a failed listing costs one reconnect attempt. */
    method Start(script: seq<Cycle>)
      requires |script| > 0 && script[|script| - 1].stopRequested
      modifies this
      ensures !isRunning
      ensures State(processedFiles, calls) == Run(config, old(State(processedFiles, calls)), script)
    {
      ghost var start := State(processedFiles, calls);
      isRunning := true;
      var i := 0;
      while isRunning
        invariant 0 <= i < |script|
        invariant isRunning ==> Run(config, State(processedFiles, calls), script[i..]) == Run(config, start, script)
        invariant !isRunning ==> State(processedFiles, calls) == Run(config, start, script)
        decreases |script| - i, isRunning
      {
        var cycle := script[i];
        ghost var before := State(processedFiles, calls);
        calls := calls + [List];
        match cycle.listing {
          case ListFailed(o) =>
            var reconnected := Connect(o);
          case Listed(entries) =>
            var k := 0;
            while k < |entries|
              invariant 0 <= k <= |entries|
              invariant isRunning
              invariant ListingRun(State(processedFiles, calls), entries[k..]) == CycleRun(config, before, cycle)
            {
              var e := entries[k];
              if !Skipped(processedFiles, e.name) {
                ProcessFile(e.name, e.outcome);
              }
              assert entries[k..][1..] == entries[k + 1..];
              k := k + 1;
            }
        }
        assert State(processedFiles, calls) == CycleRun(config, before, cycle);
        if cycle.stopRequested {
          Stop();
        } else {
          assert script[i..][1..] == script[i + 1..];
          i := i + 1;
        }
      }
    }

    /** `stop()`: the loop exits at its next check, and the connection is closed. */
    method Stop()
      modifies this
      ensures !isRunning
      ensures processedFiles == old(processedFiles) && calls == old(calls) + [Close]
    {
      isRunning := false;
      calls := calls + [Close];
    }
  }
}
