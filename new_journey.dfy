/** The new-journey page: upload the optional cover file and the metadata
    document, submit `startJourney` with a time window computed from the clock,
    then find the new journey's id in the receipt or, failing that, in a query
    of the receipt's block. */
module NewJourney {
  import opened Wrappers
  import opened JsErrors
  import opened Events
  import opened Pinata
  import Addresses
  import Text
  import opened Backend

  /** `Number(e.target.value)` of the days input, for inputs that are numbers
      of whole days or not numbers at all. */
  datatype NumberInput = NotANumber | Finite(value: int)

  /** `Number(e.target.value) || 30`: zero and `NaN` are falsy. */
  function DaysFromInput(v: NumberInput): (days: int)
    ensures days != 0
    ensures v.NotANumber? ==> days == 30
    ensures v.Finite? ==> (days == v.value <==> v.value != 0)
    ensures v.Finite? && v.value == 0 ==> days == 30
  {
    if v.NotANumber? || v.value == 0 then 30 else v.value
  }

  const SecondsPerDay: int := 24 * 60 * 60
  const StartDelay: int := 10

  /** The `start` and `end` arguments of `startJourney`, in seconds. */
  datatype Window = Window(start: int, end: int)

  /** With `now = Math.floor(nowMs / 1000)`, the journey starts ten seconds from
      now and ends `days` days from now. */
  function TimeWindow(nowMs: int, days: int): Window {
    var now := nowMs / 1000;
    Window(now + StartDelay, now + days * SecondsPerDay)
  }

  /** The start is ten seconds after the clock reading rounded down to whole
      seconds, and the end is `days` whole days after that reading. */
  lemma TimeWindowFromClock(nowMs: int, days: int)
    ensures var w := TimeWindow(nowMs, days);
      && (w.start - StartDelay) * 1000 <= nowMs < (w.start - StartDelay) * 1000 + 1000
      && w.end == w.start - StartDelay + days * SecondsPerDay
  {
  }

  /** The window ends after it starts exactly when `days` is at least one; the
      input can still deliver a negative number, which gives an end in the past. */
  lemma {:induction false} WindowNonEmptyIffDays(nowMs: int, days: int)
    ensures TimeWindow(nowMs, days).start < TimeWindow(nowMs, days).end <==> days >= 1
  {
    if days >= 1 {
      assert days * SecondsPerDay >= SecondsPerDay;
    } else {
      assert days * SecondsPerDay <= 0;
    }
  }

  /** The position of the first log that decodes to `JourneyStarted`. */
  function FirstStarted(logs: seq<RawLog>): (r: Option<nat>)
    ensures r.Some? ==> r.value < |logs| && IsJourneyStarted(logs[r.value])
    ensures r.Some? ==> forall j | 0 <= j < r.value :: !IsJourneyStarted(logs[j])
    ensures r.None? <==> forall j | 0 <= j < |logs| :: !IsJourneyStarted(logs[j])
  {
    if logs == [] then None
    else if IsJourneyStarted(logs[0]) then Some(0)
    else
      var r := FirstStarted(logs[1..]);
      if r.Some? then Some(r.value + 1) else None
  }

  /** The journey id of the first `JourneyStarted` log, if any. */
  function JourneyIdIn(logs: seq<RawLog>): Option<int> {
    var i := FirstStarted(logs);
    if i.Some? then Some(logs[i.value].parse.event.journeyId) else None
  }

  /** The first match is the one the search stops at: later matches do not count. */
  lemma {:induction false} FirstStartedIsUnique(logs: seq<RawLog>, i: nat)
    requires i < |logs| && IsJourneyStarted(logs[i])
    requires forall j | 0 <= j < i :: !IsJourneyStarted(logs[j])
    ensures FirstStarted(logs) == Some(i)
  {
    if i > 0 {
      assert !IsJourneyStarted(logs[0]);
      FirstStartedIsUnique(logs[1..], i - 1);
    }
  }

  /** Logs appended after a `JourneyStarted` log leave the id found unchanged. */
  lemma LaterLogsIgnored(logs: seq<RawLog>, more: seq<RawLog>)
    requires JourneyIdIn(logs).Some?
    ensures JourneyIdIn(logs + more) == JourneyIdIn(logs)
  {
    var i := FirstStarted(logs).value;
    assert (logs + more)[i] == logs[i];
    forall j | 0 <= j < i ensures !IsJourneyStarted((logs + more)[j]) {
      assert (logs + more)[j] == logs[j];
    }
    FirstStartedIsUnique(logs + more, i);
  }

  /** The `for ... break` of the page: the id of the first log that parses as
      `JourneyStarted`; logs whose parse throws are skipped. */
  method FindJourneyId(logs: seq<RawLog>) returns (id: Option<int>)
    ensures id == JourneyIdIn(logs)
    ensures id.Some? <==> exists i | 0 <= i < |logs| :: IsJourneyStarted(logs[i])
  {
    id := None;
    var i := 0;
    while i < |logs|
      invariant 0 <= i <= |logs|
      invariant forall j | 0 <= j < i :: !IsJourneyStarted(logs[j])
    {
      if IsJourneyStarted(logs[i]) {
        FirstStartedIsUnique(logs, i);
        id := Some(logs[i].parse.event.journeyId);
        return;
      }
      i := i + 1;
    }
  }

  /** A sequence of calls and what it gave. */
  datatype Upload<T> = Upload(calls: seq<Call>, result: Result<T, Thrown>)

  /** `pinFileToIPFS(file)` with no options, given the header choice that
      `SelectHeaders` makes: post, then read the response. A credentials error
      means no request at all. */
  function PinSpec(h: Result<Headers, Thrown>, payload: Payload, sc: Script, n: nat): Upload<PinResult> {
    if h.Failure? then Upload([], Failure(h.error))
    else
      var call := PinataFetch(h.value, payload);
      var resp := sc.fetch(n);
      if resp.Threw? then Upload([call], Failure(resp.error))
      else Upload([call], HandleResponse(resp.value))
  }

  /** The two uploads of `onCreate`: the cover file when one is chosen, then the
      metadata document naming the cover's CID; the result is `ipfs://<cid>`. */
  function UploadSpec(h: Result<Headers, Thrown>, f: Form, sc: Script, n: nat): Upload<string> {
    var cover := if f.hasFile then PinSpec(h, UserFile, sc, n) else Upload([], Success(PinResult(Some(""))));
    if cover.result.Failure? then Upload(cover.calls, Failure(cover.result.error))
    else
      var meta := PinSpec(h, JourneyMetadata(cover.result.value.cid, f.days), sc, n + |cover.calls|);
      if meta.result.Failure? then Upload(cover.calls + meta.calls, Failure(meta.result.error))
      else Upload(cover.calls + meta.calls, Success("ipfs://" + ShowOptional(meta.result.value.cid)))
  }

  /** Without usable credentials nothing is uploaded and the credentials error is raised. */
  lemma UploadNeedsCredentials(env: PinataEnv, f: Form, sc: Script, n: nat)
    requires SelectHeaders(NoOptions, env).Failure?
    ensures UploadSpec(SelectHeaders(NoOptions, env), f, sc, n) == Upload([], Failure(NewError(MissingCredentials)))
  {
  }

  /** The cover is uploaded first, and only when a file is chosen; the metadata
      upload comes next and names the cover's CID ("" without a file). */
  lemma UploadOrder(h: Result<Headers, Thrown>, f: Form, sc: Script, n: nat)
    requires h.Success?
    ensures var u := UploadSpec(h, f, sc, n);
      && 1 <= |u.calls| <= 2
      && (f.hasFile ==> u.calls[0] == PinataFetch(h.value, UserFile))
      && (!f.hasFile ==> u.calls == [PinataFetch(h.value, JourneyMetadata(Some(""), f.days))])
      && (f.hasFile && PinSpec(h, UserFile, sc, n).result.Success? ==>
            u.calls == [PinataFetch(h.value, UserFile), PinataFetch(h.value, JourneyMetadata(PinSpec(h, UserFile, sc, n).result.value.cid, f.days))])
      && (u.result.Success? ==> u.calls[|u.calls| - 1].payload.JourneyMetadata?)
  {
  }

  /** The fallback search: only when the receipt holds no `JourneyStarted` log,
      query that event at the receipt's block (no bounds without a receipt). A
      failed query finds nothing. */
  function SearchSpec(receipt: Option<Receipt>, sc: Script, n: nat): Upload<Option<int>> {
    var inReceipt := if receipt.Some? then JourneyIdIn(receipt.value.logs) else None;
    if inReceipt.Some? then Upload([], Success(inReceipt))
    else
      var block := if receipt.Some? then Some(receipt.value.blockNumber) else None;
      var q := sc.query(n);
      Upload([QueryLogs(AllJourneyStarted, block, block)], Success(if q.Ok? then JourneyIdIn(q.value) else None))
  }

  /** The query runs exactly when the receipt gave no id, it is restricted to
      the receipt's block, and an id in the receipt wins. */
  lemma SearchFallsBackOnlyWhenNeeded(receipt: Option<Receipt>, sc: Script, n: nat)
    ensures var r := SearchSpec(receipt, sc, n);
      var inReceipt := receipt.Some? && JourneyIdIn(receipt.value.logs).Some?;
      && r.result.Success?
      && (inReceipt <==> r.calls == [])
      && (inReceipt ==> r.result.value == JourneyIdIn(receipt.value.logs))
      && (!inReceipt && receipt.Some? ==>
            r.calls == [QueryLogs(AllJourneyStarted, Some(receipt.value.blockNumber), Some(receipt.value.blockNumber))])
      && (!inReceipt && sc.query(n).Threw? ==> r.result.value == None)
  {
  }

  /** The form fields `onCreate` uses. */
  datatype Form = Form(days: int, requireEvidence: bool, verificationMode: int, hasFile: bool)

  /** What `onCreate` reads: a signer, the contract address, the Pinata
      environment and `Date.now()` when the window is computed. */
  datatype CreateCtx = CreateCtx(hasSigner: bool, address: Option<string>, pinata: PinataEnv, nowMs: int)

  /** The page's `creating` and `msg` state, and where the router was sent. */
  datatype Shown = Shown(creating: bool, msg: string, navigatedTo: Option<int>)

  datatype CreateRun = CreateRun(shown: Shown, calls: seq<Call>)

  const CouldNotParse: string := "Created successfully, but couldn't parse JourneyId. Please check the list page."

  /** The `catch`: the error as `String(e)`; the `finally`: `creating` false. */
  function Failed(s: Shown, calls: seq<Call>, e: Thrown): CreateRun {
    CreateRun(s.(creating := false, msg := AsString(e)), calls)
  }

  /** From `tx.wait()` on: wait for the receipt, search for the id, then
      navigate to the journey or say that its id was not found. */
  function ReceiptSpec(s: Shown, txHash: string, sc: Script, n: nat): CreateRun {
    var receipt := sc.wait(n);
    if receipt.Threw? then Failed(s, [WaitFor(txHash)], receipt.error)
    else
      var found := SearchSpec(receipt.value, sc, n + 1);
      if found.result.value.Some? then
        CreateRun(s.(creating := false, msg := "Transaction submitted: " + txHash, navigatedTo := found.result.value),
                  [WaitFor(txHash)] + found.calls)
      else CreateRun(s.(creating := false, msg := CouldNotParse), [WaitFor(txHash)] + found.calls)
  }

  /** From `startJourney` on: submit the transaction with the window of the
      clock reading, then as `ReceiptSpec`. */
  function SubmitSpec(c: CreateCtx, f: Form, s: Shown, journeyCID: string, sc: Script, n: nat): CreateRun {
    var w := TimeWindow(c.nowMs, f.days);
    var send := SendStartJourney(journeyCID, w.start, w.end, f.days, f.requireEvidence, f.verificationMode);
    var tx := sc.send(n);
    if tx.Threw? then Failed(s, [send], tx.error)
    else
      var r := ReceiptSpec(s, tx.value, sc, n + 1);
      CreateRun(r.shown, [send] + r.calls)
  }

  /** `onCreate` after the uploads `u`: an upload error is caught, otherwise
      the journey is submitted with the metadata's URI. */
  function AfterUpload(c: CreateCtx, f: Form, s: Shown, u: Upload<string>, sc: Script, n: nat): CreateRun {
    if u.result.Failure? then Failed(s, u.calls, u.result.error)
    else
      var r := SubmitSpec(c, f, s, u.result.value, sc, n + |u.calls|);
      CreateRun(r.shown, u.calls + r.calls)
  }

  /** `onCreate` */
  function CreateSpec(c: CreateCtx, f: Form, s: Shown, sc: Script, n: nat): CreateRun {
    if !c.hasSigner || !Text.Truthy(c.address) then CreateRun(s, [])
    else AfterUpload(c, f, s, UploadSpec(SelectHeaders(NoOptions, c.pinata), f, sc, n), sc, n)
  }

  /** Whatever happens after the uploads, `creating` ends false. */
  lemma AfterUploadEndsIdle(c: CreateCtx, f: Form, s: Shown, u: Upload<string>, sc: Script, n: nat)
    ensures !AfterUpload(c, f, s, u, sc, n).shown.creating
  {
  }

  /** Without a signer or an address `onCreate` does nothing; otherwise
      `creating` is false when it ends, whatever happened. */
  lemma CreateEndsIdle(c: CreateCtx, f: Form, s: Shown, sc: Script, n: nat)
    ensures var r := CreateSpec(c, f, s, sc, n);
      && (!c.hasSigner || !Text.Truthy(c.address) ==> r == CreateRun(s, []))
      && (c.hasSigner && Text.Truthy(c.address) ==> !r.shown.creating)
  {
    if c.hasSigner && Text.Truthy(c.address) {
      AfterUploadEndsIdle(c, f, s, UploadSpec(SelectHeaders(NoOptions, c.pinata), f, sc, n), sc, n);
    }
  }

  /** A successful upload is followed by `startJourney` with the uploaded URI
      and the window of the clock reading. */
  lemma AfterUploadSubmits(c: CreateCtx, f: Form, s: Shown, u: Upload<string>, sc: Script, n: nat)
    requires u.result.Success?
    ensures var r := AfterUpload(c, f, s, u, sc, n);
      var w := TimeWindow(c.nowMs, f.days);
      && |r.calls| > |u.calls|
      && r.calls[..|u.calls|] == u.calls
      && r.calls[|u.calls|] == SendStartJourney(u.result.value, w.start, w.end, f.days, f.requireEvidence, f.verificationMode)
  {
    var r := SubmitSpec(c, f, s, u.result.value, sc, n + |u.calls|);
    assert (u.calls + r.calls)[..|u.calls|] == u.calls;
    assert (u.calls + r.calls)[|u.calls|] == r.calls[0];
  }

  /** After the uploads, the transaction is `startJourney` with the uploaded
      metadata and the window of the clock reading. */
  lemma CreateSubmitsWindow(c: CreateCtx, f: Form, s: Shown, sc: Script, n: nat)
    requires c.hasSigner && Text.Truthy(c.address)
    requires UploadSpec(SelectHeaders(NoOptions, c.pinata), f, sc, n).result.Success?
    ensures var u := UploadSpec(SelectHeaders(NoOptions, c.pinata), f, sc, n);
      var r := CreateSpec(c, f, s, sc, n);
      var w := TimeWindow(c.nowMs, f.days);
      && |r.calls| > |u.calls|
      && r.calls[..|u.calls|] == u.calls
      && r.calls[|u.calls|] == SendStartJourney(u.result.value, w.start, w.end, f.days, f.requireEvidence, f.verificationMode)
  {
    AfterUploadSubmits(c, f, s, UploadSpec(SelectHeaders(NoOptions, c.pinata), f, sc, n), sc, n);
  }

  /** Once the receipt is in, the page navigates exactly when an id was found,
      to that id; otherwise it shows the fixed message and stays. */
  lemma SubmitNavigatesIffFound(c: CreateCtx, f: Form, s: Shown, journeyCID: string, sc: Script, n: nat)
    requires sc.send(n).Ok? && sc.wait(n + 1).Ok?
    ensures var r := SubmitSpec(c, f, s, journeyCID, sc, n);
      var found := SearchSpec(sc.wait(n + 1).value, sc, n + 2).result.value;
      && (found.Some? ==> r.shown.navigatedTo == found && r.shown.msg == "Transaction submitted: " + sc.send(n).value)
      && (found.None? ==> r.shown.navigatedTo == s.navigatedTo && r.shown.msg == CouldNotParse)
  {
  }

  /** A failure before the receipt, in the submission or the wait,
      shows the error, navigates nowhere and makes no later call. */
  lemma SubmitFailure(c: CreateCtx, f: Form, s: Shown, journeyCID: string, sc: Script, n: nat)
    ensures var r := SubmitSpec(c, f, s, journeyCID, sc, n);
      && (sc.send(n).Threw? ==> r.shown == s.(creating := false, msg := AsString(sc.send(n).error)) && |r.calls| == 1)
      && (sc.send(n).Ok? && sc.wait(n + 1).Threw? ==>
            r.shown == s.(creating := false, msg := AsString(sc.wait(n + 1).error)) && |r.calls| == 2)
  {
  }

  /** `pinFileToIPFS` */
  method PinFile(chain: Chain, h: Result<Headers, Thrown>, payload: Payload) returns (r: Result<PinResult, Thrown>)
    modifies chain
    ensures var u := PinSpec(h, payload, chain.script, |old(chain.log)|);
      r == u.result && chain.log == old(chain.log) + u.calls
  {
    if h.Failure? {
      return Failure(h.error);
    }
    var resp := chain.Fetch(h.value, payload);
    if resp.Threw? {
      return Failure(resp.error);
    }
    r := HandleResponse(resp.value);
  }

  /** The two uploads. */
  method UploadAll(chain: Chain, h: Result<Headers, Thrown>, f: Form) returns (r: Result<string, Thrown>)
    modifies chain
    ensures var u := UploadSpec(h, f, chain.script, |old(chain.log)|);
      r == u.result && chain.log == old(chain.log) + u.calls
  {
    var cid: Option<string> := Some("");
    if f.hasFile {
      var res := PinFile(chain, h, UserFile);
      if res.Failure? {
        return Failure(res.error);
      }
      cid := res.value.cid;
    }
    var metaRes := PinFile(chain, h, JourneyMetadata(cid, f.days));
    if metaRes.Failure? {
      return Failure(metaRes.error);
    }
    r := Success("ipfs://" + ShowOptional(metaRes.value.cid));
  }

  /** The search in the receipt, then the fallback query. */
  method Search(chain: Chain, receipt: Option<Receipt>) returns (id: Option<int>)
    modifies chain
    ensures var u := SearchSpec(receipt, chain.script, |old(chain.log)|);
      id == u.result.value && chain.log == old(chain.log) + u.calls
  {
    id := None;
    if receipt.Some? {
      id := FindJourneyId(receipt.value.logs);
    }
    if id.None? {
      var block := if receipt.Some? then Some(receipt.value.blockNumber) else None;
      var logs := chain.Query(AllJourneyStarted, block, block);
      if logs.Ok? {
        id := FindJourneyId(logs.value);
      }
    }
  }

  /** The page's state. */
  class CreatePage {
    var creating: bool
    var msg: string
    var navigatedTo: Option<int>

    constructor ()
      ensures Snapshot() == Shown(false, "", None)
    {
      creating := false;
      msg := "";
      navigatedTo := None;
    }

    function Snapshot(): Shown
      reads this
    {
      Shown(creating, msg, navigatedTo)
    }

    /** `onCreate` */
    method OnCreate(chain: Chain, c: CreateCtx, f: Form)
      modifies this, chain
      ensures var r := CreateSpec(c, f, old(Snapshot()), chain.script, |old(chain.log)|);
        Snapshot() == r.shown && chain.log == old(chain.log) + r.calls
    {
      if !c.hasSigner || !Text.Truthy(c.address) {
        return;
      }
      ghost var s := Snapshot();
      ghost var u := UploadSpec(SelectHeaders(NoOptions, c.pinata), f, chain.script, |chain.log|);
      creating := true;
      var journeyCID := UploadAll(chain, SelectHeaders(NoOptions, c.pinata), f);
      SubmitUploaded(chain, c, f, journeyCID, s, u, old(chain.log));
    }

    /** The rest of `onCreate` once the uploads `u` are done. */
    method SubmitUploaded(chain: Chain, c: CreateCtx, f: Form, journeyCID: Result<string, Thrown>,
                          ghost s: Shown, ghost u: Upload<string>, ghost log0: seq<Call>)
      requires Snapshot() == s.(creating := true)
      requires journeyCID == u.result && chain.log == log0 + u.calls
      modifies this, chain
      ensures var r := AfterUpload(c, f, s, u, chain.script, |log0|);
        Snapshot() == r.shown && chain.log == log0 + r.calls
    {
      if journeyCID.Failure? {
        msg := AsString(journeyCID.error);
        creating := false;
        return;
      }
      Submit(chain, c, f, journeyCID.value, s);
      AppendAssoc(log0, u.calls, SubmitSpec(c, f, s, journeyCID.value, chain.script, |log0| + |u.calls|).calls);
    }

    /** From `startJourney` to the end of `onCreate`. */
    method Submit(chain: Chain, c: CreateCtx, f: Form, journeyCID: string, ghost s: Shown)
      requires Snapshot() == s.(creating := true)
      modifies this, chain
      ensures var r := SubmitSpec(c, f, s, journeyCID, chain.script, |old(chain.log)|);
        Snapshot() == r.shown && chain.log == old(chain.log) + r.calls
    {
      var w := TimeWindow(c.nowMs, f.days);
      var send := SendStartJourney(journeyCID, w.start, w.end, f.days, f.requireEvidence, f.verificationMode);
      var tx := chain.Send(send);
      if tx.Threw? {
        msg := AsString(tx.error);
        creating := false;
        return;
      }
      msg := "Transaction submitted: " + tx.value;
      AwaitReceipt(chain, tx.value, s);
      AppendAssoc(old(chain.log), [send], ReceiptSpec(s, tx.value, chain.script, |old(chain.log)| + 1).calls);
    }

    /** `tx.wait()`, the search, and the navigation or message. */
    method AwaitReceipt(chain: Chain, txHash: string, ghost s: Shown)
      requires Snapshot() == s.(creating := true, msg := "Transaction submitted: " + txHash)
      modifies this, chain
      ensures var r := ReceiptSpec(s, txHash, chain.script, |old(chain.log)|);
        Snapshot() == r.shown && chain.log == old(chain.log) + r.calls
    {
      var receipt := chain.Wait(txHash);
      if receipt.Threw? {
        msg := AsString(receipt.error);
        creating := false;
        return;
      }
      var id := Search(chain, receipt.value);
      if id.Some? {
        navigatedTo := id;
      } else {
        msg := CouldNotParse;
      }
      creating := false;
    }
  }
}
