/**
 * What the closure-based watcher guarantees: the stage order of
 * `processEDIFile` and when it yields a result, what `uploadAckFile` does
 * whatever the upload meets, the skip rule, the gating of dispatch and
 * upload on a saved order, and that a throw ends the current poll but not
 * the loop.
 */
module SrcWatcherProperties {
  import opened Wrappers
  import opened JsString
  import opened Seqs
  import SrcTypes
  import opened SrcWatcher

  // ------------------------------------------------------------ processEDIFile

  /** The six stages in their fixed order, for a parsed order and an acknowledgment. */
  function Pipeline(filename: string, content: string, po: SrcTypes.PurchaseOrder, ack: string): seq<Stage> {
    [Parse(content), Validate, CreateAck, SaveOrder(po), SaveFile(content, filename, "850"), SaveFile(ack, "997_" + filename, "997")]
  }

  /** Every collaborator resolves, `parse` yields an order and validation says valid. */
  predicate AllSucceed(s: EdiServices) {
    && s.parse.Returned? && s.parse.value.Some?
    && s.validate == Returned(true)
    && s.createAck.Returned?
    && s.saveOrder.Returned?
    && s.save850.Returned?
    && s.save997.Returned?
  }

  /**
   * The stages run in the fixed order parse, validate, createAck, saveOrder,
   * saveFile 850, saveFile 997 (named `997_` + filename), stopping early:
   * what is invoked is always a prefix of that pipeline.
   */
  lemma StagesFollowPipeline(filename: string, content: string, s: EdiServices)
    ensures 1 <= |ProcessEdiFile(filename, content, s).stages| <= 6
    ensures ProcessEdiFile(filename, content, s).stages[0] == Parse(content)
    ensures s.parse.Returned? && s.parse.value.Some? ==>
      ProcessEdiFile(filename, content, s).stages
        <= Pipeline(filename, content, s.parse.value.value, if s.createAck.Returned? then s.createAck.value else "")
  {
  }

  /**
   * There is a result exactly when every stage succeeded; it then holds the
   * acknowledgment and the saved order, and all six stages were invoked.
   */
  lemma ResultIffAllSucceed(filename: string, content: string, s: EdiServices)
    ensures ProcessEdiFile(filename, content, s).result.Some? <==> AllSucceed(s)
    ensures AllSucceed(s) ==>
      && ProcessEdiFile(filename, content, s).stages == Pipeline(filename, content, s.parse.value.value, s.createAck.value)
      && ProcessEdiFile(filename, content, s).result == Some(EdiResult(s.createAck.value, s.saveOrder.value))
  {
  }

  /**
   * Without an order from `parse`, or when validation rejects or is not
   * valid, there is no result and neither createAck nor saveOrder nor
   * saveFile is invoked.
   */
  lemma EarlyReturnSavesNothing(filename: string, content: string, s: EdiServices)
    ensures !(s.parse.Returned? && s.parse.value.Some?) ==> ProcessEdiFile(filename, content, s) == Processed([Parse(content)], None)
    ensures s.parse.Returned? && s.parse.value.Some? && s.validate != Returned(true) ==>
      ProcessEdiFile(filename, content, s) == Processed([Parse(content), Validate], None)
  {
  }

  // ------------------------------------------------------------ uploadAckFile

  /** The acknowledgment is written and uploaded as `997_` + name, and only the original is renamed, to `_` + name. */
  lemma UploadNames(name: string, s: UploadServices, cwd: string)
    ensures forall f :: Upload(f) in UploadAck(name, s, cwd).calls ==> f == "997_" + name
    ensures forall f :: WriteFile(f) in UploadAck(name, s, cwd).calls ==> f == "997_" + name
    ensures forall a, b :: Rename(a, b) in UploadAck(name, s, cwd).calls ==> a == name && b == "_" + name
  {
  }

  /**
   * Once the temp directory exists the `finally` block runs: the directory
   * is removed whatever the write, `cd /IN`, upload and `pwd` met, and the
   * function returns normally exactly when the removal, `cd /OUT` and the
   * rename succeed, leaving the session in `/OUT` with the file renamed.
   */
  lemma UploadCompletes(name: string, s: UploadServices, cwd: string)
    ensures s.makeTempDir ==> RemoveDir in UploadAck(name, s, cwd).calls
    ensures !UploadAck(name, s, cwd).threw <==> s.makeTempDir && s.remove && s.cdOut && s.rename
    ensures !UploadAck(name, s, cwd).threw ==>
      UploadAck(name, s, cwd).cwd == "/OUT" && Rename(name, "_" + name) in UploadAck(name, s, cwd).calls
  {
  }

  /** Whether the write, `cd /IN`, upload and `pwd` succeed changes neither the outcome nor the final directory after a good `finally`. */
  lemma TryFailuresSwallowed(name: string, s: UploadServices, cwd: string, write: bool, cdIn: bool, upload: bool, pwd: bool)
    ensures UploadAck(name, s.(write := write, cdIn := cdIn, upload := upload, pwd := pwd), cwd).threw == UploadAck(name, s, cwd).threw
    ensures s.remove && s.cdOut ==>
      UploadAck(name, s.(write := write, cdIn := cdIn, upload := upload, pwd := pwd), cwd).cwd == UploadAck(name, s, cwd).cwd
  {
  }

  /**
   * When the temp directory cannot be removed after `cd /IN` succeeded, the
   * function throws before `cd /OUT`: the session stays in `/IN` and the
   * original file keeps its name, so it is listed again on a later poll.
   */
  lemma RemoveFailureLeavesIn(name: string, s: UploadServices, cwd: string)
    requires s.makeTempDir && s.write && s.cdIn && !s.remove
    ensures UploadAck(name, s, cwd).threw
    ensures UploadAck(name, s, cwd).cwd == "/IN"
    ensures Rename(name, "_" + name) !in UploadAck(name, s, cwd).calls
  {
    assert UploadAck(name, s, cwd).calls == [MakeTempDir] + TryUpload("997_" + name, s) + [RemoveDir];
  }

  // ------------------------------------------------------------ one listed file

  /** The order `processEDIFile` saved for a downloaded file, when it returned one. */
  function SavedOrder(name: string, f: FileScript): Option<Order> {
    if f.download.None? then None
    else
      match ProcessEdiFile(name, f.download.value, f.edi).result
      case None => None
      case Some(r) => r.order
  }

  /**
   * A file is downloaded first and only under its own name; dispatch happens
   * exactly when a result with a truthy order came back, and the upload
   * (and with it the rename) is attempted only then, right after dispatch,
   * whatever dispatch met.
   */
  lemma FileGating(name: string, f: FileScript, cwd: string)
    ensures FileRun(name, f, cwd).calls[0] == Download(name)
    ensures (exists o :: Dispatch(o) in FileRun(name, f, cwd).calls) <==> SavedOrder(name, f).Some?
    ensures SavedOrder(name, f).None? ==>
      MakeTempDir !in FileRun(name, f, cwd).calls && Rename(name, "_" + name) !in FileRun(name, f, cwd).calls
    ensures SavedOrder(name, f).Some? ==> MakeTempDir in FileRun(name, f, cwd).calls
    ensures FileRun(name, f, cwd).threw ==> f.download.None? || SavedOrder(name, f).Some?
  {
    if f.download.Some? {
      var p := ProcessEdiFile(name, f.download.value, f.edi);
      var base := [Download(name)] + StageCalls(p.stages);
      assert forall c :: c in StageCalls(p.stages) ==> c.Invoke?;
      if p.result.Some? && p.result.value.order.Some? {
        var u := UploadAck(name, f.upload, cwd);
        assert u.calls[0] == MakeTempDir;
        assert forall c :: c in u.calls ==> !c.Download? && !c.Dispatch?;
        assert FileRun(name, f, cwd).calls == base + [Dispatch(p.result.value.order.value)] + u.calls;
        assert Dispatch(p.result.value.order.value) in FileRun(name, f, cwd).calls;
      }
    }
  }

  /** A file's run downloads that file and no other. */
  lemma FileDownloads(name: string, f: FileScript, cwd: string)
    ensures forall m :: Download(m) in FileRun(name, f, cwd).calls ==> m == name
  {
    if f.download.Some? {
      var p := ProcessEdiFile(name, f.download.value, f.edi);
      assert forall c :: c in StageCalls(p.stages) ==> c.Invoke?;
    }
  }

  // ------------------------------------------------------------ the listing

  /** A listing run appends to the trace it starts with. */
  lemma {:induction false} ListingRunAppends(c: seq<Call>, threw: bool, cwd: string, entries: seq<Entry>)
    ensures ListingRun(Trace(c, threw, cwd), entries)
         == Trace(c + ListingRun(Trace([], threw, cwd), entries).calls,
                  ListingRun(Trace([], threw, cwd), entries).threw,
                  ListingRun(Trace([], threw, cwd), entries).cwd)
    decreases entries
  {
    if entries == [] || threw {
      assert c + [] == c;
    } else if Hidden(entries[0].name) {
      ListingRunAppends(c, threw, cwd, entries[1..]);
    } else {
      var f := FileRun(entries[0].name, entries[0].script, cwd);
      assert [] + f.calls == f.calls;
      ListingRunAppends(c + f.calls, f.threw, f.cwd, entries[1..]);
      ListingRunAppends(f.calls, f.threw, f.cwd, entries[1..]);
      AppendAssoc(c, f.calls, ListingRun(Trace([], f.threw, f.cwd), entries[1..]).calls);
    }
  }

  /** Running two listings one after the other is running their concatenation. */
  lemma {:induction false} ListingRunSplit(t: Trace, a: seq<Entry>, b: seq<Entry>)
    ensures ListingRun(t, a + b) == ListingRun(ListingRun(t, a), b)
    decreases a
  {
    if a == [] {
      assert a + b == b;
    } else if t.threw {
      assert ListingRun(t, a) == t;
      ListingRunThrown(t, b);
      ListingRunThrown(t, a + b);
    } else {
      assert (a + b)[0] == a[0] && (a + b)[1..] == a[1..] + b;
      if Hidden(a[0].name) {
        ListingRunSplit(t, a[1..], b);
      } else {
        var f := FileRun(a[0].name, a[0].script, t.cwd);
        ListingRunSplit(Trace(t.calls + f.calls, f.threw, f.cwd), a[1..], b);
      }
    }
  }

  lemma ListingRunThrown(t: Trace, entries: seq<Entry>)
    requires t.threw
    ensures ListingRun(t, entries) == t
  {
  }

  /**
   * A download failure ends the poll: once the files before it were handled
   * without a throw, the failing download is the last call and none of the
   * later files is touched.
   */
  lemma DownloadFailureAbortsPoll(t: Trace, entries: seq<Entry>, k: nat)
    requires k < |entries| && !Hidden(entries[k].name) && entries[k].script.download.None?
    requires !ListingRun(t, entries[..k]).threw
    ensures ListingRun(t, entries)
         == Trace(ListingRun(t, entries[..k]).calls + [Download(entries[k].name)], true, ListingRun(t, entries[..k]).cwd)
  {
    assert entries == entries[..k] + entries[k..];
    ListingRunSplit(t, entries[..k], entries[k..]);
    var before := ListingRun(t, entries[..k]);
    assert entries[k..][0] == entries[k];
    ListingRunThrown(Trace(before.calls + [Download(entries[k].name)], true, before.cwd), entries[k..][1..]);
  }

  /** Within one listing, a name beginning with `.` or `_` is never downloaded. */
  lemma {:induction false} ListingSkipsHidden(threw: bool, cwd: string, entries: seq<Entry>, n: string)
    requires Hidden(n)
    ensures Download(n) !in ListingRun(Trace([], threw, cwd), entries).calls
    decreases entries
  {
    if entries != [] && !threw {
      if Hidden(entries[0].name) {
        ListingSkipsHidden(threw, cwd, entries[1..], n);
      } else {
        var f := FileRun(entries[0].name, entries[0].script, cwd);
        FileDownloads(entries[0].name, entries[0].script, cwd);
        assert [] + f.calls == f.calls;
        ListingRunAppends(f.calls, f.threw, f.cwd, entries[1..]);
        ListingSkipsHidden(f.threw, f.cwd, entries[1..], n);
        assert entries[0].name != n;
      }
    }
  }

  // ------------------------------------------------------------ the poll loop

  lemma PollRunAppends(c: seq<Call>, cwd: string, listing: Option<seq<Entry>>)
    ensures PollRun(Trace(c, false, cwd), listing)
         == Trace(c + PollRun(Trace([], false, cwd), listing).calls,
                  PollRun(Trace([], false, cwd), listing).threw,
                  PollRun(Trace([], false, cwd), listing).cwd)
  {
    assert [] + [List(cwd)] == [List(cwd)];
    if listing.Some? {
      ListingRunAppends(c + [List(cwd)], false, cwd, listing.value);
      ListingRunAppends([List(cwd)], false, cwd, listing.value);
      AppendAssoc(c, [List(cwd)], ListingRun(Trace([], false, cwd), listing.value).calls);
    }
  }

  lemma {:induction false} LoopRunAppends(c: seq<Call>, cwd: string, script: seq<Poll>)
    ensures LoopRun(Trace(c, false, cwd), script)
         == Trace(c + LoopRun(Trace([], false, cwd), script).calls, false, LoopRun(Trace([], false, cwd), script).cwd)
    decreases script
  {
    if script == [] {
      assert c + [] == c;
    } else {
      var next := PollRun(Trace([], false, cwd), script[0].listing);
      PollRunAppends(c, cwd, script[0].listing);
      if script[0].stopRequested {
        AppendAssoc(c, next.calls, [Close]);
      } else {
        LoopRunAppends(c + next.calls, next.cwd, script[1..]);
        LoopRunAppends(next.calls, next.cwd, script[1..]);
        AppendAssoc(c, next.calls, LoopRun(Trace([], false, next.cwd), script[1..]).calls);
      }
    }
  }

  /** One poll lists once, in the working directory it starts in, and never closes. */
  lemma PollShape(cwd: string, listing: Option<seq<Entry>>, n: string)
    ensures |PollRun(Trace([], false, cwd), listing).calls| >= 1
    ensures PollRun(Trace([], false, cwd), listing).calls[0] == List(cwd)
    ensures Count(PollRun(Trace([], false, cwd), listing).calls, IsList) == 1
    ensures Close !in PollRun(Trace([], false, cwd), listing).calls
    ensures Hidden(n) ==> Download(n) !in PollRun(Trace([], false, cwd), listing).calls
  {
    var rest := if listing.None? then [] else ListingRun(Trace([], false, cwd), listing.value).calls;
    assert [] + [List(cwd)] == [List(cwd)] == [List(cwd)] + [];
    if listing.Some? {
      ListingRunAppends([List(cwd)], false, cwd, listing.value);
      ListingOnlyFileCalls(false, cwd, listing.value);
      if Hidden(n) {
        ListingSkipsHidden(false, cwd, listing.value, n);
      }
    }
    assert PollRun(Trace([], false, cwd), listing).calls == [List(cwd)] + rest;
    CountAppend([List(cwd)], rest, IsList);
  }

  predicate IsList(c: Call) { c.List? }

  /** The `for` loop makes no listing and no close call. */
  lemma {:induction false} ListingOnlyFileCalls(threw: bool, cwd: string, entries: seq<Entry>)
    ensures forall k :: 0 <= k < |ListingRun(Trace([], threw, cwd), entries).calls| ==>
      !ListingRun(Trace([], threw, cwd), entries).calls[k].List? && !ListingRun(Trace([], threw, cwd), entries).calls[k].Close?
    decreases entries
  {
    if entries != [] && !threw {
      if Hidden(entries[0].name) {
        ListingOnlyFileCalls(threw, cwd, entries[1..]);
      } else {
        var f := FileRun(entries[0].name, entries[0].script, cwd);
        FileRunNoPollCalls(entries[0].name, entries[0].script, cwd);
        assert [] + f.calls == f.calls;
        ListingRunAppends(f.calls, f.threw, f.cwd, entries[1..]);
        ListingOnlyFileCalls(f.threw, f.cwd, entries[1..]);
      }
    }
  }

  lemma FileRunNoPollCalls(name: string, f: FileScript, cwd: string)
    ensures forall c :: c in FileRun(name, f, cwd).calls ==> !c.List? && !c.Close?
  {
    if f.download.Some? {
      var p := ProcessEdiFile(name, f.download.value, f.edi);
      assert forall c :: c in StageCalls(p.stages) ==> c.Invoke?;
    }
  }

  /** The number of polls: the turns up to and including the one during which `stop` is called. */
  function PollsUntilStop(script: seq<Poll>): (r: nat)
    ensures r <= |script|
  {
    if script == [] then 0
    else 1 + if script[0].stopRequested then 0 else PollsUntilStop(script[1..])
  }

  /**
   * A poll that throws does not end the loop: the loop lists once per turn
   * up to the turn during which `stop` is called, whatever each turn met,
   * never downloads a hidden or `_`-prefixed file, and disconnects as its
   * last call.
   */
  lemma {:induction false} LoopPolls(cwd: string, script: seq<Poll>, n: string)
    requires |script| > 0 && script[|script| - 1].stopRequested
    ensures Count(LoopRun(Trace([], false, cwd), script).calls, IsList) == PollsUntilStop(script)
    ensures Hidden(n) ==> Download(n) !in LoopRun(Trace([], false, cwd), script).calls
    ensures LoopRun(Trace([], false, cwd), script).calls[|LoopRun(Trace([], false, cwd), script).calls| - 1] == Close
    decreases script
  {
    var next := PollRun(Trace([], false, cwd), script[0].listing);
    PollShape(cwd, script[0].listing, n);
    if script[0].stopRequested {
      CountAppend(next.calls, [Close], IsList);
    } else {
      var rest := LoopRun(Trace([], false, next.cwd), script[1..]);
      LoopRunAppends(next.calls, next.cwd, script[1..]);
      LoopPolls(next.cwd, script[1..], n);
      CountAppend(next.calls, rest.calls, IsList);
    }
  }
}
