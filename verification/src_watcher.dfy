/**
 * The closure-based watcher of src/watcher.ts: each poll lists the remote
 * directory, downloads every file whose name does not begin with `.` or `_`,
 * runs it through the EDI service pipeline (`processEDIFile`) and, when an
 * order was saved, dispatches it and uploads the 997 acknowledgment
 * (`uploadAckFile`), which renames the original to `_` + name.
 *
 * The EDI reading, validation and acknowledgment services, the database,
 * the FTP server and the local file system are not modelled: what each call
 * answers is given as an outcome, and the calls made are recorded in the
 * ghost trace `calls`. `cwd` is the FTP session's working directory, as
 * the client's `cd` calls leave it.
 */
module SrcWatcher {
  import opened Wrappers
  import opened JsString
  import opened Types
  import opened Seqs
  import SrcTypes
  import FtpWatcher

  /** How a collaborator's promise settles: it rejects, or resolves to a value. */
  datatype Reply<+T> = Threw | Returned(value: T)

  /** A saved row of the orders table; only its identity matters here. */
  datatype Order = Order(id: nat)

  /**
   * What the collaborators of `processEDIFile` answer for one file: the
   * order `parse` normalized (`None` when `po` is undefined), whether the
   * interchange is valid, the acknowledgment text, the saved order (`None`
   * when the database returned nothing), and the two file uploads.
   */
  datatype EdiServices = EdiServices(
    parse: Reply<Option<SrcTypes.PurchaseOrder>>,
    validate: Reply<bool>,
    createAck: Reply<string>,
    saveOrder: Reply<Option<Order>>,
    save850: Reply<()>,
    save997: Reply<()>)

  /** The collaborator calls of `processEDIFile`; a file is saved with its text, name and folder. */
  datatype Stage =
    | Parse(content: string)
    | Validate
    | CreateAck
    | SaveOrder(po: SrcTypes.PurchaseOrder)
    | SaveFile(text: string, name: string, folder: string)

  /** `{ ack, order }`: the acknowledgment text and the saved order. */
  datatype EdiResult = EdiResult(ack: string, order: Option<Order>)

  /** The stages invoked, and the result (`None` when the function returns `undefined`). */
  datatype Processed = Processed(stages: seq<Stage>, result: Option<EdiResult>)

  /**
   * `processEDIFile`: parse, validate, acknowledge, save the order, save the
   * 850 and then the 997. A missing order or a failed validation returns
   * early, and a rejection at any stage is caught and yields no result.
   */
  function ProcessEdiFile(filename: string, content: string, s: EdiServices): Processed {
    match s.parse
    case Threw => Processed([Parse(content)], None)
    case Returned(None) => Processed([Parse(content)], None)
    case Returned(Some(po)) =>
      match s.validate
      case Threw => Processed([Parse(content), Validate], None)
      case Returned(false) => Processed([Parse(content), Validate], None)
      case Returned(true) =>
        match s.createAck
        case Threw => Processed([Parse(content), Validate, CreateAck], None)
        case Returned(ack) =>
          var saving := [Parse(content), Validate, CreateAck, SaveOrder(po)];
          match s.saveOrder
          case Threw => Processed(saving, None)
          case Returned(order) =>
            if s.save850.Threw? then Processed(saving + [SaveFile(content, filename, "850")], None)
            else
              var all := saving + [SaveFile(content, filename, "850"), SaveFile(ack, "997_" + filename, "997")];
              if s.save997.Threw? then Processed(all, None)
              else Processed(all, Some(EdiResult(ack, order)))
  }

  /** Whether each file-system and FTP step of `uploadAckFile` succeeds. */
  datatype UploadServices = UploadServices(
    makeTempDir: bool,
    write: bool,
    cdIn: bool,
    upload: bool,
    pwd: bool,
    remove: bool,
    cdOut: bool,
    rename: bool)

  /** Calls made to the FTP client, the local file system and the services. */
  datatype Call =
    | Access(host: string, port: nat, user: string, password: string)
    | Cd(dir: string)
    | List(dir: string)
    | Download(name: string)
    | Invoke(stage: Stage)
    | Dispatch(order: Order)
    | MakeTempDir
    | WriteFile(name: string)
    | Upload(name: string)
    | Pwd
    | RemoveDir
    | Rename(from: string, to: string)
    | Close

  /** The calls made, whether the last one threw out of the code that made them, and the working directory after. */
  datatype Trace = Trace(calls: seq<Call>, threw: bool, cwd: string)

  /** The stages as calls. */
  function StageCalls(stages: seq<Stage>): (r: seq<Call>)
    ensures |r| == |stages|
    ensures forall i :: 0 <= i < |stages| ==> r[i] == Invoke(stages[i])
  {
    if stages == [] then [] else [Invoke(stages[0])] + StageCalls(stages[1..])
  }

  /** The `try` block of `uploadAckFile`: write, `cd /IN`, upload, `pwd`, up to the first failure. */
  function TryUpload(filename: string, s: UploadServices): seq<Call> {
    [WriteFile(filename)]
      + if !s.write then []
        else [Cd("/IN")] + if !s.cdIn then [] else [Upload(filename)] + if !s.upload then [] else [Pwd]
  }

  /** The `finally` block: remove the temp directory, `cd /OUT`, rename, up to the first failure. */
  function FinallyUpload(name: string, s: UploadServices): seq<Call> {
    [RemoveDir] + if !s.remove then [] else [Cd("/OUT")] + if !s.cdOut then [] else [Rename(name, "_" + name)]
  }

  /**
   * `uploadAckFile` from working directory `cwd`: a failure of the temp
   * directory throws at once; failures in the `try` block are swallowed;
   * the `finally` block always runs, and a failure there throws.
   */
  function UploadAck(name: string, s: UploadServices, cwd: string): Trace {
    if !s.makeTempDir then Trace([MakeTempDir], true, cwd)
    else
      var filename := "997_" + name;
      var cwdAfterTry := if s.write && s.cdIn then "/IN" else cwd;
      Trace(
        [MakeTempDir] + TryUpload(filename, s) + FinallyUpload(name, s),
        !(s.remove && s.cdOut && s.rename),
        if s.remove && s.cdOut then "/OUT" else cwdAfterTry)
  }

  /** What one listed file meets: its downloaded text (`None` when the download throws) and the services' answers. */
  datatype FileScript = FileScript(download: Option<string>, edi: EdiServices, upload: UploadServices)

  datatype Entry = Entry(name: string, script: FileScript)

  /** One turn of the poll loop: the listing (`None` when `list` throws), and whether `stop` is called during it. */
  datatype Poll = Poll(listing: Option<seq<Entry>>, stopRequested: bool)

  /** The skip rule of `processFiles`: hidden files and files already renamed with `_`. */
  predicate Hidden(name: string) {
    StartsWith(name, '.') || StartsWith(name, '_')
  }

  /**
   * The loop body of `processFiles` for a file it does not skip: download,
   * `processEDIFile`, then, when a result with a truthy order came back,
   * dispatch and upload the acknowledgment. Only the download and the
   * upload can throw out of it.
   */
  function FileRun(name: string, f: FileScript, cwd: string): Trace {
    if f.download.None? then Trace([Download(name)], true, cwd)
    else
      var p := ProcessEdiFile(name, f.download.value, f.edi);
      var base := [Download(name)] + StageCalls(p.stages);
      if p.result.Some? && p.result.value.order.Some? then
        var u := UploadAck(name, f.upload, cwd);
        Trace(base + [Dispatch(p.result.value.order.value)] + u.calls, u.threw, u.cwd)
      else Trace(base, false, cwd)
  }

  /** The `for` loop of `processFiles` continued from trace `t`; the first throw ends it. */
  function ListingRun(t: Trace, entries: seq<Entry>): Trace
    decreases entries
  {
    if entries == [] || t.threw then t
    else if Hidden(entries[0].name) then ListingRun(t, entries[1..])
    else
      var f := FileRun(entries[0].name, entries[0].script, t.cwd);
      ListingRun(Trace(t.calls + f.calls, f.threw, f.cwd), entries[1..])
  }

  /** `processFiles`: list the working directory, then the `for` loop; a throw from `list` ends it. */
  function PollRun(t: Trace, listing: Option<seq<Entry>>): Trace {
    var listed := Trace(t.calls + [List(t.cwd)], false, t.cwd);
    match listing
    case None => Trace(listed.calls, true, listed.cwd)
    case Some(entries) => ListingRun(listed, entries)
  }

  /** The `while` loop of `start` over a script, then `disconnect` once `stop` was called. */
  function LoopRun(t: Trace, script: seq<Poll>): Trace
    decreases script
  {
    if script == [] then t
    else
      var next := PollRun(t, script[0].listing);
      if script[0].stopRequested then Trace(next.calls + [Close], false, next.cwd)
      else LoopRun(Trace(next.calls, false, next.cwd), script[1..])
  }

  /** The connection settings `createWatcher` hard-codes. */
  const Config: FtpConfig := FtpConfig("127.0.0.1", 2121, "testuser", "password123", "OUT")

  /** The calls `connect` makes: `cd` only after `access` succeeded. */
  function ConnectCalls(o: FtpWatcher.ConnectOutcome): seq<Call> {
    [Access(Config.host, Config.port, Config.username, Config.password)]
      + if o.accessOk then [Cd(Config.directory)] else []
  }

  /** The state `createWatcher` closes over, with the FTP session it drives. */
  class Watcher {
    var isRunning: bool
    var cwd: string
    ghost var calls: seq<Call>

    constructor()
      ensures !isRunning && cwd == "" && calls == []
    {
      isRunning := false;
      cwd := "";
      calls := [];
    }

    /** One iteration of the `for` loop of `processFiles` for a file it does not skip. */
    method ProcessListedFile(name: string, f: FileScript) returns (threw: bool)
      modifies this
      ensures Trace(calls, threw, cwd) == Trace(old(calls) + FileRun(name, f, old(cwd)).calls,
                                                FileRun(name, f, old(cwd)).threw, FileRun(name, f, old(cwd)).cwd)
      ensures isRunning == old(isRunning)
    {
      calls := calls + [Download(name)];
      if f.download.None? {
        return true;
      }
      var p := ProcessEdiFile(name, f.download.value, f.edi);
      AppendAssoc(old(calls), [Download(name)], StageCalls(p.stages));
      calls := calls + StageCalls(p.stages);
      threw := false;
      if p.result.Some? {
        var order := p.result.value.order;
        if order.Some? {
          var u := UploadAck(name, f.upload, cwd);
          ghost var base := [Download(name)] + StageCalls(p.stages);
          AppendAssoc(old(calls), base, [Dispatch(order.value)]);
          AppendAssoc(old(calls), base + [Dispatch(order.value)], u.calls);
          calls := calls + [Dispatch(order.value)] + u.calls;
          cwd := u.cwd;
          threw := u.threw;
        }
      }
    }

    /** `processFiles`: returns `true` when it throws. */
    method ProcessFiles(listing: Option<seq<Entry>>) returns (threw: bool)
      modifies this
      ensures Trace(calls, threw, cwd) == PollRun(Trace(old(calls), false, old(cwd)), listing)
      ensures isRunning == old(isRunning)
    {
      calls := calls + [List(cwd)];
      if listing.None? {
        return true;
      }
      var entries := listing.value;
      ghost var start := Trace(calls, false, cwd);
      threw := false;
      var k := 0;
      while k < |entries|
        invariant 0 <= k <= |entries|
        invariant isRunning == old(isRunning)
        invariant ListingRun(Trace(calls, threw, cwd), entries[k..]) == ListingRun(start, entries)
        invariant threw ==> ListingRun(Trace(calls, threw, cwd), entries[k..]) == Trace(calls, threw, cwd)
      {
        if threw {
          return;
        }
        var e := entries[k];
        if !Hidden(e.name) {
          threw := ProcessListedFile(e.name, e.script);
        }
        assert entries[k..][1..] == entries[k + 1..];
        k := k + 1;
      }
    }

    /**
     * `start`: sets the flag, connects (a failed connect rejects, leaving the
     * flag set and listing nothing), polls until `stop`, catching whatever a
     * poll throws, and then disconnects.
     */
    method Start(o: FtpWatcher.ConnectOutcome, script: seq<Poll>) returns (connected: bool)
      requires |script| > 0 && script[|script| - 1].stopRequested
      modifies this
      ensures connected == (o.accessOk && o.cdOk)
      ensures !connected ==> isRunning && calls == old(calls) + ConnectCalls(o) && cwd == old(cwd)
      ensures connected ==> !isRunning
      ensures connected ==>
        Trace(calls, false, cwd) == LoopRun(Trace(old(calls) + ConnectCalls(o), false, Config.directory), script)
    {
      isRunning := true;
      calls := calls + [Access(Config.host, Config.port, Config.username, Config.password)];
      if !o.accessOk {
        return false;
      }
      calls := calls + [Cd(Config.directory)];
      if !o.cdOk {
        return false;
      }
      connected := true;
      cwd := Config.directory;
      AppendAssoc(old(calls), [Access(Config.host, Config.port, Config.username, Config.password)], [Cd(Config.directory)]);
      ghost var start := Trace(calls, false, cwd);
      var i := 0;
      while isRunning
        invariant 0 <= i < |script|
        invariant isRunning ==> LoopRun(Trace(calls, false, cwd), script[i..]) == LoopRun(start, script)
        invariant !isRunning ==> Trace(calls + [Close], false, cwd) == LoopRun(start, script)
        decreases |script| - i, isRunning
      {
        var poll := script[i];
        var _ := ProcessFiles(poll.listing);
        if poll.stopRequested {
          Stop();
        } else {
          assert script[i..][1..] == script[i + 1..];
          i := i + 1;
        }
      }
      calls := calls + [Close];
    }

    /** `stop`: the loop exits at its next check. */
    method Stop()
      modifies this
      ensures !isRunning
      ensures calls == old(calls) && cwd == old(cwd)
    {
      isRunning := false;
    }
  }
}
