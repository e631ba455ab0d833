/** The journey hook: its state slots, the operations that update them step by
    step (read the encrypted handle, decrypt it, rebuild the history, record
    progress with one refresh-and-retry on a relayer fault), and the rules they keep. */
module JourneySession {
  import opened Wrappers
  import opened Text
  import opened JsErrors
  import opened Events
  import Addresses
  import opened ProgressHistory
  import opened Backend

  /** The hook's parameters on a render. */
  datatype Params = Params(
    instance: Option<nat>, chainId: Option<int>, hasSigner: bool,
    hasReadonlyProvider: bool, hasRefresh: bool, journeyId: Option<int>)

  /** What an operation reads: the parameters, the memoised `contractAddress` and `journeyIdRef.current`. */
  datatype Ctx = Ctx(
    instance: Option<nat>, contract: Option<string>, hasSigner: bool,
    hasReadonlyProvider: bool, hasRefresh: bool, journeyId: int)

  /** The hook's React state. */
  datatype State = State(
    message: Notice, isDecrypting: bool, isRecording: bool,
    handle: Option<string>, clear: Option<ClearValue>, progressLogs: seq<ProgressRecord>)

  /** An operation's effect: the new state, the calls it made, and what it throws, if anything. */
  datatype Run = Run(state: State, calls: seq<Call>, thrown: Option<Thrown>)

  /** The hook's `message` slot. The texts are those `NoticeText` gives; keeping the
      kind of notice apart from its text lets the operations be stated without
      string literals. */
  datatype Notice =
    | NoNotice
    | LoadingHandle
    | HandleReadFailed(error: Thrown)
    | HandleLoaded
    | HistoryFailed(error: Thrown)
    | NoSignature
    | Decrypted(value: Option<ClearValue>)
    | Recorded(hash: Option<string>)
    | Encrypting
    | RelayerDropped
    | FailedAfterRefresh(error: Thrown)
    | RecordFailed(reason: string)

  /** The text `setMessage` receives for each notice. */
  function NoticeText(m: Notice): string {
    match m
    case NoNotice => ""
    case LoadingHandle => "Loading encrypted progress days..."
    case HandleReadFailed(e) => "getEncryptedProgressDays failed: " + AsString(e)
    case HandleLoaded => "Loaded handle"
    case HistoryFailed(e) => "loadProgressHistory failed: " + AsString(e)
    case NoSignature => "Unable to build FHEVM decryption signature"
    case Decrypted(v) => "Decrypted clear value: " + ShowClear(v)
    case Recorded(h) => "Progress recorded: " + ShowOptional(h)
    case Encrypting => "Encrypting + recording progress..."
    case RelayerDropped => "Relayer connection dropped. Refreshing FHEVM and retrying..."
    case FailedAfterRefresh(e) => "recordProgress failed after refresh: " + AsString(e)
    case RecordFailed(reason) => "recordProgress failed: " + reason
  }

  const RelayerStopped: string := "backend connection task has stopped"
  /** Literally what the source matches, including its grammar. */
  const RelayerBadResponse: string := "Relayer didn't response correctly"

  predicate HasAddress(c: Ctx) {
    Truthy(c.contract)
  }

  /** `canWrite`: an address, an instance and a signer. */
  predicate CanWrite(c: Ctx) {
    HasAddress(c) && c.instance.Some? && c.hasSigner
  }

  /** `canRead`: an address and a read-only provider. */
  predicate CanRead(c: Ctx) {
    HasAddress(c) && c.hasReadonlyProvider
  }

  /** `canDecrypt`: what `canWrite` needs, plus a handle and no decryption running. */
  predicate CanDecrypt(c: Ctx, s: State) {
    CanWrite(c) && Truthy(s.handle) && !s.isDecrypting
  }

  /** The guard of the two read operations: `contractRO` and a signer. */
  predicate CanReadAsSigner(c: Ctx) {
    CanRead(c) && c.hasSigner
  }

  /** `isDecrypted`: a clear value is held. */
  predicate HoldsClear(s: State) {
    s.clear.Some?
  }

  /** The relayer-fault test of the retry rule. */
  predicate IsTransientFault(msg: string) {
    Contains(msg, RelayerStopped) || Contains(msg, RelayerBadResponse)
  }

  /** `${v}` for a decrypted value. */
  function ShowClear(v: Option<ClearValue>): string {
    match v
    case None => "undefined"
    case Some(ClearNumber(n)) => IntToString(n)
    case Some(ClearBool(b)) => if b then "true" else "false"
    case Some(ClearText(t)) => t
  }

  /** `refreshEncryptedProgressDays` */
  function RefreshSpec(c: Ctx, s: State, sc: Script, n: nat): Run {
    if !CanReadAsSigner(c) then Run(s, [], None)
    else
      var s1 := s.(message := LoadingHandle);
      var a := sc.address(n);
      if a.Threw? then
        Run(s1.(message := HandleReadFailed(a.error)), [GetAddress], None)
      else
        var calls := [GetAddress, ReadEncryptedProgressDays(c.journeyId, a.value)];
        var h := sc.readHandle(n + 1);
        if h.Threw? then
          Run(s1.(message := HandleReadFailed(h.error)), calls, None)
        else
          Run(s1.(handle := Some(h.value), message := HandleLoaded), calls, None)
  }

  /** `loadProgressHistory` */
  function HistorySpec(c: Ctx, s: State, sc: Script, n: nat): Run {
    if !CanReadAsSigner(c) then Run(s, [], None)
    else
      var a := sc.address(n);
      if a.Threw? then
        Run(s.(message := HistoryFailed(a.error)), [GetAddress], None)
      else
        var calls := [GetAddress, QueryLogs(ProgressOfJourney(c.journeyId), None, None)];
        var q := sc.query(n + 1);
        if q.Threw? then
          Run(s.(message := HistoryFailed(q.error)), calls, None)
        else
          Run(s.(progressLogs := History(q.value, c.journeyId, a.value)), calls, None)
  }

  /** `decryptProgressDays`; a rejection of `loadOrSign` or `userDecrypt` propagates. */
  function DecryptSpec(c: Ctx, s: State, sc: Script, n: nat): Run {
    if !(CanWrite(c) && Truthy(s.handle)) then Run(s, [], None)
    else
      var s1 := s.(isDecrypting := true);
      var contract := c.contract.value;
      var g := sc.sign(n);
      var call1 := LoadOrSign(c.instance.value, [contract]);
      if g.Threw? then Run(s1.(isDecrypting := false), [call1], Some(g.error))
      else if g.value.None? then
        Run(s1.(message := NoSignature, isDecrypting := false), [call1], None)
      else
        var h := s.handle.value;
        var calls := [call1, UserDecrypt(c.instance.value, h, contract, g.value.value)];
        var d := sc.decrypt(n + 1);
        if d.Threw? then Run(s1.(isDecrypting := false), calls, Some(d.error))
        else
          var v := if h in d.value then Some(d.value[h]) else None;
          Run(s1.(clear := v, message := Decrypted(v), isDecrypting := false), calls, None)
  }

  /** `tryOnce`: encrypt the value 1, submit, wait for the receipt, then re-read
      the handle and rebuild the history. A rejection at any of the first four
      steps propagates. */
  function AttemptSpec(c: Ctx, s: State, sc: Script, n: nat, reportCID: Option<string>): Run {
    if !CanWrite(c) then Run(s, [], None)
    else
      var sub := Submit(c.instance.value, c.contract.value, c.journeyId, sc, n, reportCID);
      Settle(s, sub, Reload(c, s.(message := Recorded(ReceiptHash(sub))), sc, n + 4))
  }

  /** An attempt given its first four steps `sub` and the reload `r` that a
      receipt leads to: a rejection propagates with the state unchanged. */
  function Settle(s: State, sub: Submission, r: Run): Run {
    if sub.receipt.Threw? then Run(s, sub.calls, Some(sub.receipt.error))
    else Run(r.state, sub.calls + r.calls, None)
  }

  /** The calls up to the receipt and the receipt, or the first rejection. */
  datatype Submission = Submission(calls: seq<Call>, receipt: Outcome<Option<Receipt>>)

  /** The first four steps of `tryOnce`: the signer's address, the encrypted
      input holding 1, the transaction and its receipt. */
  function Submit(instance: nat, contract: string, journeyId: int, sc: Script, n: nat, reportCID: Option<string>): Submission {
    var a := sc.address(n);
    if a.Threw? then Submission([GetAddress], Threw(a.error))
    else
      var c1 := [GetAddress, EncryptInput(instance, contract, a.value, [1])];
      var e := sc.encrypt(n + 1);
      if e.Threw? then Submission(c1, Threw(e.error))
      else
        var c2 := c1 + [SendRecordProgress(journeyId, reportCID.GetOr(""), e.value.handle, e.value.inputProof)];
        var t := sc.send(n + 2);
        if t.Threw? then Submission(c2, Threw(t.error))
        else Submission(c2 + [WaitFor(t.value)], sc.wait(n + 3))
  }

  /** `receipt?.hash` */
  function HashOf(receipt: Option<Receipt>): Option<string> {
    if receipt.Some? then Some(receipt.value.hash) else None
  }

  /** The hash the notice shows once `wait()` settles. */
  function ReceiptHash(sub: Submission): Option<string> {
    if sub.receipt.Ok? then HashOf(sub.receipt.value) else None
  }

  /** What `tryOnce` does after the receipt: re-read the handle, then rebuild the history. */
  function Reload(c: Ctx, s: State, sc: Script, n: nat): Run {
    var r1 := RefreshSpec(c, s, sc, n);
    var r2 := HistorySpec(c, r1.state, sc, n + |r1.calls|);
    Run(r2.state, r1.calls + r2.calls, None)
  }

  /** The calls `refreshFhevm?.()` makes: none when the caller gave no refresh hook. */
  function RefreshCalls(c: Ctx): (calls: seq<Call>)
    ensures |calls| == RefreshCount(c)
  {
    if c.hasRefresh then [RefreshInstance] else []
  }

  /** How many calls `refreshFhevm?.()` makes; positions are counted with it
      rather than with the length of `RefreshCalls`. */
  function RefreshCount(c: Ctx): nat {
    if c.hasRefresh then 1 else 0
  }

  /** The state the first attempt of `recordProgress` starts from. */
  function Recording(s: State): State {
    s.(isRecording := true, message := Encrypting)
  }

  /** `recordProgress`: the attempts inside its `try`, then the `finally`
      that clears the busy flag; nothing at all without `canWrite`. */
  function RecordSpec(c: Ctx, s: State, sc: Script, n: nat, reportCID: Option<string>): Run {
    if !CanWrite(c) then Run(s, [], None)
    else
      var r := AttemptsSpec(c, Recording(s), sc, n, reportCID);
      Run(r.state.(isRecording := false), r.calls, None)
  }

  /** The `try` and `catch` of `recordProgress`: one attempt; on a relayer fault
      one refresh and exactly one more attempt; every failure ends in a
      message, never a throw. */
  function AttemptsSpec(c: Ctx, s: State, sc: Script, n: nat, reportCID: Option<string>): Run {
    var r1 := AttemptSpec(c, s, sc, n, reportCID);
    Recover(c, r1, Retry(c, r1, sc, n, reportCID))
  }

  /** The second attempt a relayer fault of `r1` leads to: from the first
      attempt's state with the relayer notice, after its calls and the refresh. */
  function Retry(c: Ctx, r1: Run, sc: Script, n: nat, reportCID: Option<string>): Run {
    AttemptSpec(c, r1.state.(message := RelayerDropped), sc, n + |r1.calls| + RefreshCount(c), reportCID)
  }

  /** The attempts are the first attempt, followed on a throw by the `catch`
      from where it stopped. */
  lemma AttemptsThenCatch(c: Ctx, s: State, sc: Script, n: nat, reportCID: Option<string>)
    ensures var r1 := AttemptSpec(c, s, sc, n, reportCID);
      var r := AttemptsSpec(c, s, sc, n, reportCID);
      && (r1.thrown.None? ==> r == r1)
      && (r1.thrown.Some? ==>
            var k := CatchSpec(c, r1.state, r1.thrown.value, sc, n + |r1.calls|, reportCID);
            r == Run(k.state, r1.calls + k.calls, None))
  {
  }

  /** The `try`/`catch` given the first attempt `r1` and the second attempt `r2`
      that a relayer fault would lead to. */
  function Recover(c: Ctx, r1: Run, r2: Run): Run {
    if r1.thrown.None? then r1
    else
      var k := CatchWith(c, r1.state, r1.thrown.value, r2);
      Run(k.state, r1.calls + k.calls, None)
  }

  /** The `catch` clause, given what was thrown and the second attempt `r2` it
      would make: on a relayer fault the refresh and that attempt, whose own
      failure becomes a message; any other failure becomes a message at once. */
  function CatchWith(c: Ctx, s: State, e: Thrown, r2: Run): Run {
    var msg := MessageOrString(e);
    if IsTransientFault(msg) then Retried(c, r2)
    else Run(s.(message := RecordFailed(msg)), [], None)
  }

  /** The refresh and the second attempt `r2`: its failure becomes the notice. */
  function Retried(c: Ctx, r2: Run): Run {
    var s2 := if r2.thrown.None? then r2.state else r2.state.(message := FailedAfterRefresh(r2.thrown.value));
    Run(s2, RefreshCalls(c) + r2.calls, None)
  }

  /** The `catch` clause of `recordProgress` run from state `s` at position `n`. */
  function CatchSpec(c: Ctx, s: State, e: Thrown, sc: Script, n: nat, reportCID: Option<string>): Run {
    CatchWith(c, s, e, AttemptSpec(c, s.(message := RelayerDropped), sc, n + RefreshCount(c), reportCID))
  }

  // ---------------------------------------------------------------------------
  // Properties of the operations

  predicate IsRecordTx(x: Call) { x.SendRecordProgress? }
  predicate IsEncrypt(x: Call) { x.EncryptInput? }
  predicate IsRefresh(x: Call) { x.RefreshInstance? }
  /** The calls of the two read operations. */
  predicate IsRead(x: Call) { x.GetAddress? || x.ReadEncryptedProgressDays? || x.QueryLogs? }

  /** Both substrings are recognised wherever they occur in the message. */
  lemma TransientFaultsRecognised(before: string, after: string)
    ensures IsTransientFault(before + RelayerStopped + after)
    ensures IsTransientFault(before + RelayerBadResponse + after)
  {
    ContainsInfix(before, RelayerStopped, after);
    ContainsInfix(before, RelayerBadResponse, after);
  }

  /** The retry test holds exactly when one of the two relayer texts starts
      at some position of the message. */
  lemma TransientFaultIffOccurs(msg: string)
    ensures IsTransientFault(msg) <==>
      || (exists i | 0 <= i <= |msg| - |RelayerStopped| :: StartsWith(msg[i..], RelayerStopped))
      || (exists i | 0 <= i <= |msg| - |RelayerBadResponse| :: StartsWith(msg[i..], RelayerBadResponse))
  {
    ContainsIffWindow(msg, RelayerStopped);
    ContainsIffWindow(msg, RelayerBadResponse);
  }

  /** The match is literal: the correctly spelled relayer message is not a transient fault. */
  lemma CorrectlySpelledMessageIsNotMatched()
    ensures !IsTransientFault("Relayer didn't respond correctly")
  {
    ShorterContainsNothingLonger("Relayer didn't respond correctly", RelayerStopped);
    ShorterContainsNothingLonger("Relayer didn't respond correctly", RelayerBadResponse);
  }

  /** Re-reading the handle only reads, never throws, and leaves every slot but
      `message` and `handle` alone; in particular a decrypted `clear` value
      survives a change of handle. */
  lemma RefreshOnlyReads(c: Ctx, s: State, sc: Script, n: nat)
    ensures var r := RefreshSpec(c, s, sc, n);
      && r.thrown == None
      && (forall i | 0 <= i < |r.calls| :: IsRead(r.calls[i]))
      && r.state == s.(message := r.state.message, handle := r.state.handle)
      && (r.state.handle != s.handle ==> r.calls == [GetAddress, ReadEncryptedProgressDays(c.journeyId, sc.address(n).value)]
                                         && r.state.handle == Some(sc.readHandle(n + 1).value))
      && (!CanReadAsSigner(c) <==> r.calls == [])
  {
  }

  /** Rebuilding the history only reads, never throws, and either leaves
      `progressLogs` alone or replaces it by the projection of the queried logs
      for the signer's address. */
  lemma HistoryOnlyReads(c: Ctx, s: State, sc: Script, n: nat)
    ensures var r := HistorySpec(c, s, sc, n);
      && r.thrown == None
      && (forall i | 0 <= i < |r.calls| :: IsRead(r.calls[i]))
      && r.state == s.(message := r.state.message, progressLogs := r.state.progressLogs)
      && (r.state.progressLogs == s.progressLogs
          || (sc.address(n).Ok? && sc.query(n + 1).Ok?
              && r.state.progressLogs == History(sc.query(n + 1).value, c.journeyId, sc.address(n).value)))
  {
  }

  lemma {:induction false} NoneAmongReads(calls: seq<Call>)
    requires forall i | 0 <= i < |calls| :: IsRead(calls[i])
    ensures CountIf(calls, IsRecordTx) == 0 && CountIf(calls, IsEncrypt) == 0 && CountIf(calls, IsRefresh) == 0
  {
    CountIfZeroIff(calls, IsRecordTx);
    CountIfZeroIff(calls, IsEncrypt);
    CountIfZeroIff(calls, IsRefresh);
  }

  /** Whether an attempt gets past `wait()`. */
  predicate ReachesReceipt(c: Ctx, sc: Script, n: nat) {
    CanWrite(c) && sc.address(n).Ok? && sc.encrypt(n + 1).Ok? && sc.send(n + 2).Ok? && sc.wait(n + 3).Ok?
  }

  /** The calls an attempt makes up to and including `wait()`, position by position. */
  predicate AttemptCallAt(c: Ctx, sc: Script, n: nat, reportCID: Option<string>, calls: seq<Call>, i: nat)
    requires i < |calls|
  {
    && (i == 0 ==> calls[i] == GetAddress)
    && (i == 1 ==> CanWrite(c) && sc.address(n).Ok? && calls[i] == EncryptInput(c.instance.value, c.contract.value, sc.address(n).value, [1]))
    && (i == 2 ==> sc.encrypt(n + 1).Ok? && calls[i] == SendRecordProgress(c.journeyId, reportCID.GetOr(""), sc.encrypt(n + 1).value.handle, sc.encrypt(n + 1).value.inputProof))
    && (i == 3 ==> sc.send(n + 2).Ok? && calls[i] == WaitFor(sc.send(n + 2).value))
    && (i >= 4 ==> IsRead(calls[i]))
  }

  /** An attempt that stops before the receipt changes nothing and makes at most the first four calls. */
  lemma AttemptStopsEarly(c: Ctx, s: State, sc: Script, n: nat, reportCID: Option<string>)
    requires !ReachesReceipt(c, sc, n)
    ensures var r := AttemptSpec(c, s, sc, n, reportCID);
      && r.state == s
      && (r.thrown.Some? <==> CanWrite(c))
      && |r.calls| <= 4
      && (CanWrite(c) ==> |r.calls| >= 1)
      && forall i | 0 <= i < |r.calls| :: AttemptCallAt(c, sc, n, reportCID, r.calls, i)
  {
  }

  /** An attempt that gets the receipt does not throw, and after its first four
      calls it only reads; it sets the message and may re-read the handle and
      rebuild the history. */
  lemma AttemptGetsReceipt(c: Ctx, s: State, sc: Script, n: nat, reportCID: Option<string>)
    requires ReachesReceipt(c, sc, n)
    ensures var r := AttemptSpec(c, s, sc, n, reportCID);
      && r.thrown == None
      && r.state == s.(message := r.state.message, handle := r.state.handle, progressLogs := r.state.progressLogs)
      && |r.calls| >= 4
      && forall i | 0 <= i < |r.calls| :: AttemptCallAt(c, sc, n, reportCID, r.calls, i)
  {
    var sub := Submit(c.instance.value, c.contract.value, c.journeyId, sc, n, reportCID);
    SubmitReaches(c, sc, n, reportCID);
    var s1 := s.(message := Recorded(ReceiptHash(sub)));
    ReloadOnlyReads(c, s1, sc, n + 4);
    assert forall i | 0 <= i < 4 :: AttemptCallAt(c, sc, n, reportCID, sub.calls, i);
    SettledReceipt(c, s, sc, n, reportCID, sub, Reload(c, s1, sc, n + 4));
  }

  /** The first four steps of an attempt that gets its receipt. */
  lemma SubmitReaches(c: Ctx, sc: Script, n: nat, reportCID: Option<string>)
    requires ReachesReceipt(c, sc, n)
    ensures var sub := Submit(c.instance.value, c.contract.value, c.journeyId, sc, n, reportCID);
      var e := sc.encrypt(n + 1).value;
      && sub.receipt == sc.wait(n + 3)
      && sub.calls == [GetAddress, EncryptInput(c.instance.value, c.contract.value, sc.address(n).value, [1]),
                       SendRecordProgress(c.journeyId, reportCID.GetOr(""), e.handle, e.inputProof),
                       WaitFor(sc.send(n + 2).value)]
  {
  }

  /** What a reload keeps (`ReloadOnlyReads`): it never throws, only reads and
      changes only the message, the handle and the history of `s`. */
  predicate OnlyReads(r: Run, s: State) {
    && r.thrown == None
    && (forall i | 0 <= i < |r.calls| :: IsRead(r.calls[i]))
    && r.state == s.(message := r.state.message, handle := r.state.handle, progressLogs := r.state.progressLogs)
  }

  /** An attempt settled by a receipt after the four calls up to it and a
      reload that only reads. */
  lemma SettledReceipt(c: Ctx, s: State, sc: Script, n: nat, reportCID: Option<string>, sub: Submission, r: Run)
    requires sub.receipt.Ok? && |sub.calls| == 4
    requires forall i | 0 <= i < 4 :: AttemptCallAt(c, sc, n, reportCID, sub.calls, i)
    requires OnlyReads(r, s.(message := Recorded(ReceiptHash(sub))))
    ensures var r' := Settle(s, sub, r);
      && r'.thrown == None
      && r'.state == s.(message := r'.state.message, handle := r'.state.handle, progressLogs := r'.state.progressLogs)
      && |r'.calls| >= 4
      && forall i | 0 <= i < |r'.calls| :: AttemptCallAt(c, sc, n, reportCID, r'.calls, i)
  {
    var a, b := sub.calls, r.calls;
    forall i | 0 <= i < |a + b| ensures AttemptCallAt(c, sc, n, reportCID, a + b, i) {
      if i < 4 {
        assert (a + b)[i] == a[i];
        assert AttemptCallAt(c, sc, n, reportCID, a, i);
      } else {
        assert (a + b)[i] == b[i - 4];
      }
    }
  }

  /** Reloading only reads, never throws, and changes only the message, the handle and the history. */
  lemma ReloadOnlyReads(c: Ctx, s: State, sc: Script, n: nat)
    ensures OnlyReads(Reload(c, s, sc, n), s)
  {
    var r1 := RefreshSpec(c, s, sc, n);
    RefreshOnlyReads(c, s, sc, n);
    HistoryOnlyReads(c, r1.state, sc, n + |r1.calls|);
  }

  lemma AttemptCallsAt(c: Ctx, s: State, sc: Script, n: nat, reportCID: Option<string>)
    ensures var r := AttemptSpec(c, s, sc, n, reportCID);
      && (forall i | 0 <= i < |r.calls| :: AttemptCallAt(c, sc, n, reportCID, r.calls, i))
      && (|r.calls| > 4 ==> ReachesReceipt(c, sc, n))
  {
    if ReachesReceipt(c, sc, n) { AttemptGetsReceipt(c, s, sc, n, reportCID); }
    else { AttemptStopsEarly(c, s, sc, n, reportCID); }
  }

  /** One attempt submits at most one transaction, builds at most one encrypted
      input and never refreshes the instance. */
  lemma AttemptCounts(c: Ctx, s: State, sc: Script, n: nat, reportCID: Option<string>)
    ensures var r := AttemptSpec(c, s, sc, n, reportCID);
      && CountIf(r.calls, IsRecordTx) <= 1
      && CountIf(r.calls, IsEncrypt) <= 1
      && CountIf(r.calls, IsRefresh) == 0
  {
    AttemptCallsAt(c, s, sc, n, reportCID);
    CountsOfAttemptCalls(c, sc, n, reportCID, AttemptSpec(c, s, sc, n, reportCID).calls);
  }

  lemma CountsOfAttemptCalls(c: Ctx, sc: Script, n: nat, reportCID: Option<string>, calls: seq<Call>)
    requires forall i | 0 <= i < |calls| :: AttemptCallAt(c, sc, n, reportCID, calls, i)
    ensures CountIf(calls, IsRecordTx) <= 1 && CountIf(calls, IsEncrypt) <= 1 && CountIf(calls, IsRefresh) == 0
  {
    forall j | 0 <= j < |calls|
      ensures (j != 2 ==> !IsRecordTx(calls[j])) && (j != 1 ==> !IsEncrypt(calls[j])) && !IsRefresh(calls[j])
    {
      assert AttemptCallAt(c, sc, n, reportCID, calls, j);
    }
    CountIfAtMostAt(calls, IsRecordTx, 2);
    CountIfAtMostAt(calls, IsEncrypt, 1);
    CountIfZeroIff(calls, IsRefresh);
  }

  /** Every encrypted input of an attempt holds the single value 1 and is bound
      to the journey contract, the signer's address and the captured instance;
      the handle and the history are read only after the receipt. */
  lemma AttemptEncryptsOne(c: Ctx, s: State, sc: Script, n: nat, reportCID: Option<string>)
    ensures var r := AttemptSpec(c, s, sc, n, reportCID);
      && (forall i | 0 <= i < |r.calls| && r.calls[i].EncryptInput? ::
            CanWrite(c) && sc.address(n).Ok? && r.calls[i] == EncryptInput(c.instance.value, c.contract.value, sc.address(n).value, [1]))
      && (forall i | 0 <= i < |r.calls| && (r.calls[i].ReadEncryptedProgressDays? || r.calls[i].QueryLogs?) ::
            3 < i && r.calls[3].WaitFor? && ReachesReceipt(c, sc, n))
  {
    AttemptCallsAt(c, s, sc, n, reportCID);
    EncryptsOneOfAttemptCalls(c, sc, n, reportCID, AttemptSpec(c, s, sc, n, reportCID).calls);
  }

  lemma EncryptsOneOfAttemptCalls(c: Ctx, sc: Script, n: nat, reportCID: Option<string>, calls: seq<Call>)
    requires forall i | 0 <= i < |calls| :: AttemptCallAt(c, sc, n, reportCID, calls, i)
    requires |calls| > 4 ==> ReachesReceipt(c, sc, n)
    ensures forall i | 0 <= i < |calls| && calls[i].EncryptInput? ::
      CanWrite(c) && sc.address(n).Ok? && calls[i] == EncryptInput(c.instance.value, c.contract.value, sc.address(n).value, [1])
    ensures forall i | 0 <= i < |calls| && (calls[i].ReadEncryptedProgressDays? || calls[i].QueryLogs?) ::
      3 < i && calls[3].WaitFor? && ReachesReceipt(c, sc, n)
  {
    forall i | 0 <= i < |calls| && calls[i].EncryptInput?
      ensures CanWrite(c) && sc.address(n).Ok?
      ensures calls[i] == EncryptInput(c.instance.value, c.contract.value, sc.address(n).value, [1])
    {
      assert AttemptCallAt(c, sc, n, reportCID, calls, i);
    }
    forall i | 0 <= i < |calls| && (calls[i].ReadEncryptedProgressDays? || calls[i].QueryLogs?)
      ensures 3 < i && calls[3].WaitFor? && ReachesReceipt(c, sc, n)
    {
      assert AttemptCallAt(c, sc, n, reportCID, calls, i);
      assert AttemptCallAt(c, sc, n, reportCID, calls, 3);
    }
  }

  /** A failed attempt changes no state; no attempt touches the busy flags or `clear`. */
  lemma AttemptFrame(c: Ctx, s: State, sc: Script, n: nat, reportCID: Option<string>)
    ensures Framed(AttemptSpec(c, s, sc, n, reportCID), s)
  {
    if ReachesReceipt(c, sc, n) { AttemptGetsReceipt(c, s, sc, n, reportCID); }
    else { AttemptStopsEarly(c, s, sc, n, reportCID); }
  }

  /** An attempt that gets the receipt, in terms of the reload that follows it. */
  lemma AttemptAfterReceipt(c: Ctx, s: State, sc: Script, n: nat, reportCID: Option<string>)
    requires ReachesReceipt(c, sc, n)
    ensures var e := sc.encrypt(n + 1).value;
      var r := Reload(c, s.(message := Recorded(HashOf(sc.wait(n + 3).value))), sc, n + 4);
      AttemptSpec(c, s, sc, n, reportCID) ==
        Run(r.state, [GetAddress, EncryptInput(c.instance.value, c.contract.value, sc.address(n).value, [1]),
                      SendRecordProgress(c.journeyId, reportCID.GetOr(""), e.handle, e.inputProof),
                      WaitFor(sc.send(n + 2).value)] + r.calls, None)
  {
    SubmitReaches(c, sc, n, reportCID);
  }

  /** What the `catch` of `recordProgress` retries on: a rejection whose message
      names a relayer fault. */
  predicate IsRelayerFault(r: Run) {
    r.thrown.Some? && IsTransientFault(MessageOrString(r.thrown.value))
  }

  /** Whether `recordProgress` takes the retry branch: the first attempt threw a relayer fault. */
  predicate Retries(c: Ctx, s: State, sc: Script, n: nat, reportCID: Option<string>) {
    CanWrite(c) && IsRelayerFault(AttemptSpec(c, Recording(s), sc, n, reportCID))
  }

  /** What every attempt keeps (`AttemptFrame`). */
  predicate Framed(r: Run, s: State) {
    && (r.thrown.Some? ==> r.state == s)
    && r.state.isRecording == s.isRecording
    && r.state.isDecrypting == s.isDecrypting
    && r.state.clear == s.clear
  }

  lemma RecoverFrame(c: Ctx, s: State, r1: Run, r2: Run)
    requires Framed(r1, s) && Framed(r2, r1.state.(message := RelayerDropped))
    ensures var r := Recover(c, r1, r2);
      r.thrown == None && r.state.isRecording == s.isRecording && r.state.isDecrypting == s.isDecrypting && r.state.clear == s.clear
  {
  }

  /** The attempts never throw and keep the busy flags and `clear`. */
  lemma AttemptsFrame(c: Ctx, s: State, sc: Script, n: nat, reportCID: Option<string>)
    ensures var r := AttemptsSpec(c, s, sc, n, reportCID);
      r.thrown == None && r.state.isRecording == s.isRecording && r.state.isDecrypting == s.isDecrypting && r.state.clear == s.clear
  {
    var r1 := AttemptSpec(c, s, sc, n, reportCID);
    AttemptFrame(c, s, sc, n, reportCID);
    AttemptFrame(c, r1.state.(message := RelayerDropped), sc, n + |r1.calls| + RefreshCount(c), reportCID);
    RecoverFrame(c, s, r1, Retry(c, r1, sc, n, reportCID));
  }

  /** `recordProgress` never throws, always ends with `isRecording` false when it
      ran, leaves `isDecrypting` and `clear` alone, and does nothing at all
      without `canWrite`. */
  lemma RecordNeverThrows(c: Ctx, s: State, sc: Script, n: nat, reportCID: Option<string>)
    ensures var r := RecordSpec(c, s, sc, n, reportCID);
      && r.thrown == None
      && (CanWrite(c) ==> !r.state.isRecording)
      && (!CanWrite(c) ==> r == Run(s, [], None))
      && r.state.isDecrypting == s.isDecrypting
      && r.state.clear == s.clear
  {
    if CanWrite(c) {
      AttemptsFrame(c, Recording(s), sc, n, reportCID);
    }
  }

  /** A failed recording changes nothing but the message and the busy flag: a
      failure that is no relayer fault is reported as such, and so is the
      failure of the retry. */
  lemma RecordFailureMessages(c: Ctx, s: State, sc: Script, n: nat, reportCID: Option<string>)
    requires CanWrite(c)
    ensures var r := RecordSpec(c, s, sc, n, reportCID);
      var r1 := AttemptSpec(c, Recording(s), sc, n, reportCID);
      && (r1.thrown.Some? && !IsRelayerFault(r1) ==>
            r.state == s.(message := RecordFailed(MessageOrString(r1.thrown.value)), isRecording := false))
      && (IsRelayerFault(r1) && Retry(c, r1, sc, n, reportCID).thrown.Some? ==>
            r.state == s.(message := FailedAfterRefresh(Retry(c, r1, sc, n, reportCID).thrown.value), isRecording := false))
  {
    var r1 := AttemptSpec(c, Recording(s), sc, n, reportCID);
    AttemptFrame(c, Recording(s), sc, n, reportCID);
    if IsRelayerFault(r1) {
      AttemptFrame(c, r1.state.(message := RelayerDropped), sc, n + |r1.calls| + RefreshCount(c), reportCID);
    }
  }

  lemma RefreshCallsCount(c: Ctx)
    ensures CountIf(RefreshCalls(c), IsRefresh) == (if c.hasRefresh then 1 else 0)
    ensures CountIf(RefreshCalls(c), IsRecordTx) == 0 && CountIf(RefreshCalls(c), IsEncrypt) == 0
  {
    if c.hasRefresh { CountIfOnly(RefreshCalls(c), IsRefresh, 0); } else { CountIfZeroIff(RefreshCalls(c), IsRefresh); }
    CountIfZeroIff(RefreshCalls(c), IsRecordTx);
    CountIfZeroIff(RefreshCalls(c), IsEncrypt);
  }

  /** The counts over the first attempt's calls, the refresh and the second attempt's calls. */
  lemma RetryCounts(c: Ctx, a: seq<Call>, b: seq<Call>)
    ensures CountIf(a + (RefreshCalls(c) + b), IsRefresh) == CountIf(a, IsRefresh) + CountIf(b, IsRefresh) + (if c.hasRefresh then 1 else 0)
    ensures CountIf(a + (RefreshCalls(c) + b), IsRecordTx) == CountIf(a, IsRecordTx) + CountIf(b, IsRecordTx)
    ensures CountIf(a + (RefreshCalls(c) + b), IsEncrypt) == CountIf(a, IsEncrypt) + CountIf(b, IsEncrypt)
  {
    RefreshCallsCount(c);
    CountIfAppend(RefreshCalls(c), b, IsRefresh);
    CountIfAppend(a, RefreshCalls(c) + b, IsRefresh);
    CountIfAppend(RefreshCalls(c), b, IsRecordTx);
    CountIfAppend(a, RefreshCalls(c) + b, IsRecordTx);
    CountIfAppend(RefreshCalls(c), b, IsEncrypt);
    CountIfAppend(a, RefreshCalls(c) + b, IsEncrypt);
  }

  /** The calls of the attempts. */
  lemma AttemptsCalls(c: Ctx, s: State, sc: Script, n: nat, reportCID: Option<string>)
    ensures var r1 := AttemptSpec(c, s, sc, n, reportCID);
      AttemptsSpec(c, s, sc, n, reportCID).calls ==
        if IsRelayerFault(r1) then r1.calls + (RefreshCalls(c) + Retry(c, r1, sc, n, reportCID).calls) else r1.calls
  {
  }

  /** How the calls of `recordProgress` are made up: the first attempt's calls,
      then on a relayer fault the refresh and the second attempt's calls. */
  lemma RecordCalls(c: Ctx, s: State, sc: Script, n: nat, reportCID: Option<string>)
    requires CanWrite(c)
    ensures var r1 := AttemptSpec(c, Recording(s), sc, n, reportCID);
      RecordSpec(c, s, sc, n, reportCID).calls ==
        if Retries(c, s, sc, n, reportCID) then r1.calls + (RefreshCalls(c) + Retry(c, r1, sc, n, reportCID).calls) else r1.calls
  {
    AttemptsCalls(c, Recording(s), sc, n, reportCID);
  }

  /** The instance is refreshed once exactly when the first attempt failed on a
      relayer fault and the caller gave a refresh hook. */
  lemma RecordRefreshesOnlyOnFault(c: Ctx, s: State, sc: Script, n: nat, reportCID: Option<string>)
    ensures CountIf(RecordSpec(c, s, sc, n, reportCID).calls, IsRefresh)
         == (if Retries(c, s, sc, n, reportCID) && c.hasRefresh then 1 else 0)
  {
    if CanWrite(c) {
      AttemptsRefreshes(c, Recording(s), sc, n, reportCID);
    } else {
      CountIfZeroIff([], IsRefresh);
    }
  }

  /** The attempts refresh once exactly on a relayer fault of the first one, given a refresh hook. */
  lemma AttemptsRefreshes(c: Ctx, s: State, sc: Script, n: nat, reportCID: Option<string>)
    ensures CountIf(AttemptsSpec(c, s, sc, n, reportCID).calls, IsRefresh)
         == (if IsRelayerFault(AttemptSpec(c, s, sc, n, reportCID)) && c.hasRefresh then 1 else 0)
  {
    var r1 := AttemptSpec(c, s, sc, n, reportCID);
    AttemptCounts(c, s, sc, n, reportCID);
    AttemptCounts(c, r1.state.(message := RelayerDropped), sc, n + |r1.calls| + RefreshCount(c), reportCID);
    RecoverRefreshes(c, r1, Retry(c, r1, sc, n, reportCID));
  }

  /** The refreshes of the `try`/`catch`, given attempts that never refresh. */
  lemma RecoverRefreshes(c: Ctx, r1: Run, r2: Run)
    requires CountIf(r1.calls, IsRefresh) == 0 && CountIf(r2.calls, IsRefresh) == 0
    ensures CountIf(Recover(c, r1, r2).calls, IsRefresh) == (if IsRelayerFault(r1) && c.hasRefresh then 1 else 0)
  {
    if IsRelayerFault(r1) {
      RetryCounts(c, r1.calls, r2.calls);
    } else if r1.thrown.Some? {
      assert Recover(c, r1, r2).calls == r1.calls + [] == r1.calls;
    }
  }

  /** On a relayer fault the second attempt starts right after the first
      attempt's calls and the refresh, with `getAddress`, and nothing follows
      it; without one there is no second attempt (`RecordCalls`). */
  lemma RecordRetriesOnce(c: Ctx, s: State, sc: Script, n: nat, reportCID: Option<string>)
    requires Retries(c, s, sc, n, reportCID)
    ensures var r := RecordSpec(c, s, sc, n, reportCID);
      var r1 := AttemptSpec(c, Recording(s), sc, n, reportCID);
      var k := |r1.calls| + RefreshCount(c);
      && k < |r.calls|
      && r.calls[..|r1.calls|] == r1.calls
      && (c.hasRefresh ==> r.calls[|r1.calls|] == RefreshInstance)
      && r.calls[k] == GetAddress
      && r.calls[k..] == Retry(c, r1, sc, n, reportCID).calls
  {
    var r1 := AttemptSpec(c, Recording(s), sc, n, reportCID);
    AttemptsRetry(c, Recording(s), sc, n, reportCID);
    RetrySplit(c, r1.calls, Retry(c, r1, sc, n, reportCID).calls);
  }

  /** After a relayer fault the attempts' calls are the first attempt's, the
      refresh and the retry's, which starts with `getAddress`. */
  lemma AttemptsRetry(c: Ctx, s: State, sc: Script, n: nat, reportCID: Option<string>)
    requires CanWrite(c) && IsRelayerFault(AttemptSpec(c, s, sc, n, reportCID))
    ensures var r1 := AttemptSpec(c, s, sc, n, reportCID);
      var r2 := Retry(c, r1, sc, n, reportCID);
      && AttemptsSpec(c, s, sc, n, reportCID).calls == r1.calls + (RefreshCalls(c) + r2.calls)
      && |r2.calls| >= 1 && r2.calls[0] == GetAddress
  {
    var r1 := AttemptSpec(c, s, sc, n, reportCID);
    AttemptStartsWithAddress(c, r1.state.(message := RelayerDropped), sc, n + |r1.calls| + RefreshCount(c), reportCID);
  }

  lemma RetrySplit(c: Ctx, a: seq<Call>, b: seq<Call>)
    requires |b| >= 1 && b[0] == GetAddress
    ensures var calls := a + (RefreshCalls(c) + b);
      var k := |a| + RefreshCount(c);
      && k < |calls|
      && calls[..|a|] == a
      && (c.hasRefresh ==> calls[|a|] == RefreshInstance)
      && calls[k] == GetAddress
      && calls[k..] == b
  {
    var calls := a + (RefreshCalls(c) + b);
    assert calls[..|a|] == a;
    assert calls[|a| + RefreshCount(c)..] == b;
  }

  lemma AttemptStartsWithAddress(c: Ctx, s: State, sc: Script, n: nat, reportCID: Option<string>)
    requires CanWrite(c)
    ensures |AttemptSpec(c, s, sc, n, reportCID).calls| >= 1 && AttemptSpec(c, s, sc, n, reportCID).calls[0] == GetAddress
  {
    if !ReachesReceipt(c, sc, n) { AttemptStopsEarly(c, s, sc, n, reportCID); }
    else { AttemptGetsReceipt(c, s, sc, n, reportCID); }
  }

  /** `decryptProgressDays` runs exactly when there is a signer, an instance,
      an address and a handle; otherwise it changes nothing and calls nothing. */
  lemma DecryptRunsIffReady(c: Ctx, s: State, sc: Script, n: nat)
    ensures var r := DecryptSpec(c, s, sc, n);
      (CanWrite(c) && Truthy(s.handle)) <==> r.calls != []
    ensures var r := DecryptSpec(c, s, sc, n);
      !(CanWrite(c) && Truthy(s.handle)) ==> r == Run(s, [], None)
  {
  }

  /** Once it ran, `isDecrypting` is false again whatever the outcome; the
      handle, the history and `isRecording` are never touched, and a rejection
      leaves the state as it was before the call. */
  lemma DecryptFrame(c: Ctx, s: State, sc: Script, n: nat)
    requires CanWrite(c) && Truthy(s.handle)
    ensures var r := DecryptSpec(c, s, sc, n);
      && !r.state.isDecrypting
      && r.state.handle == s.handle && r.state.progressLogs == s.progressLogs
      && r.state.isRecording == s.isRecording
      && 1 <= |r.calls| <= 2 && r.calls[0] == LoadOrSign(c.instance.value, [c.contract.value])
      && (r.thrown.Some? ==> r.state == s.(isDecrypting := false))
  {
  }

  /** No signature: the clear value stays, the notice says so, and nothing is decrypted. */
  lemma DecryptWithoutSignature(c: Ctx, s: State, sc: Script, n: nat)
    requires CanWrite(c) && Truthy(s.handle) && sc.sign(n) == Ok(None)
    ensures var r := DecryptSpec(c, s, sc, n);
      && r.state == s.(message := NoSignature, isDecrypting := false)
      && r.thrown == None && |r.calls| == 1
  {
  }

  /** With a signature, the handle is decrypted under it, and on success the
      clear value becomes the entry for the handle (`undefined` when the
      answer has none), which is also what the notice shows. */
  lemma DecryptSetsClear(c: Ctx, s: State, sc: Script, n: nat)
    requires CanWrite(c) && Truthy(s.handle)
    requires sc.sign(n).Ok? && sc.sign(n).value.Some?
    ensures var r := DecryptSpec(c, s, sc, n);
      && |r.calls| == 2
      && r.calls[1] == UserDecrypt(c.instance.value, s.handle.value, c.contract.value, sc.sign(n).value.value)
      && (sc.decrypt(n + 1).Ok? <==> r.thrown.None?)
    ensures var r := DecryptSpec(c, s, sc, n);
      var m := sc.decrypt(n + 1);
      var h := s.handle.value;
      m.Ok? ==>
        && r.state.clear == (if h in m.value then Some(m.value[h]) else None)
        && r.state.message == Decrypted(r.state.clear)
  {
  }

  /** The clear value changes only through a successful decryption. */
  lemma DecryptClearOnlyOnSuccess(c: Ctx, s: State, sc: Script, n: nat)
    ensures var r := DecryptSpec(c, s, sc, n);
      r.state.clear != s.clear ==>
        && CanWrite(c) && Truthy(s.handle)
        && sc.sign(n).Ok? && sc.sign(n).value.Some? && sc.decrypt(n + 1).Ok?
        && r.state.message == Decrypted(r.state.clear)
        && r.thrown.None?
  {
  }

  /** The flags the hook returns describe its operations: `canWrite` is
      exactly the guard of `recordProgress`, and `canDecrypt` holds exactly
      when `decryptProgressDays` would run and no decryption is under way. */
  lemma WriteFlagsMatchGuards(c: Ctx, s: State, sc: Script, n: nat, reportCID: Option<string>)
    ensures CanWrite(c) <==> RecordSpec(c, s, sc, n, reportCID).calls != []
    ensures CanDecrypt(c, s) <==> DecryptSpec(c, s, sc, n).calls != [] && !s.isDecrypting
  {
    if CanWrite(c) {
      RecordCalls(c, s, sc, n, reportCID);
      AttemptStartsWithAddress(c, Recording(s), sc, n, reportCID);
    }
  }

  /** `canRead` together with a signer is exactly the guard of both read operations. */
  lemma ReadFlagMatchesGuards(c: Ctx, s: State, sc: Script, n: nat)
    ensures CanRead(c) && c.hasSigner <==> RefreshSpec(c, s, sc, n).calls != []
    ensures CanRead(c) && c.hasSigner <==> HistorySpec(c, s, sc, n).calls != []
  {
  }

  /** `isDecrypted` (`typeof clear !== "undefined"`) is decided by decryption
      alone: a successful one sets it exactly when the answer has an entry for
      the handle, and every other outcome and operation leaves it as it was. */
  lemma IsDecryptedFollowsDecryption(c: Ctx, s: State, sc: Script, n: nat, reportCID: Option<string>)
    ensures HoldsClear(RefreshSpec(c, s, sc, n).state) == HoldsClear(s)
    ensures HoldsClear(HistorySpec(c, s, sc, n).state) == HoldsClear(s)
    ensures HoldsClear(RecordSpec(c, s, sc, n, reportCID).state) == HoldsClear(s)
    ensures var ok := CanWrite(c) && Truthy(s.handle) && sc.sign(n).Ok? && sc.sign(n).value.Some? && sc.decrypt(n + 1).Ok?;
      HoldsClear(DecryptSpec(c, s, sc, n).state) ==
        if ok then s.handle.value in sc.decrypt(n + 1).value else HoldsClear(s)
  {
    RefreshOnlyReads(c, s, sc, n);
    HistoryOnlyReads(c, s, sc, n);
    RecordNeverThrows(c, s, sc, n, reportCID);
  }

  /** The steps of `tryOnce` up to `tx.wait()`. */
  method SubmitProgress(chain: Chain, instance: nat, contract: string, journeyId: int, reportCID: Option<string>)
    returns (receipt: Outcome<Option<Receipt>>)
    modifies chain
    ensures var r := Submit(instance, contract, journeyId, chain.script, |old(chain.log)|, reportCID);
      chain.log == old(chain.log) + r.calls && receipt == r.receipt
  {
    var user := chain.GetAddress();
    if user.Threw? { return Threw(user.error); }
    var enc := chain.Encrypt(instance, contract, user.value, [1]);
    if enc.Threw? { return Threw(enc.error); }
    var tx := chain.Send(SendRecordProgress(journeyId, reportCID.GetOr(""), enc.value.handle, enc.value.inputProof));
    if tx.Threw? { return Threw(tx.error); }
    receipt := chain.Wait(tx.value);
  }

  // ---------------------------------------------------------------------------
  // The hook as an object: its slots are fields, its callbacks methods

  class Session {
    var instance: Option<nat>
    const env: Addresses.Env
    /** `contractAddress`, memoised on `chainId` */
    var contractAddress: Option<string>
    var hasSigner: bool
    var hasReadonlyProvider: bool
    var hasRefresh: bool
    /** `journeyIdRef.current` */
    var journeyIdRef: int
    var message: Notice
    var isDecrypting: bool
    var isRecording: bool
    var handle: Option<string>
    var clear: Option<ClearValue>
    var progressLogs: seq<ProgressRecord>

    function Context(): Ctx
      reads this
    {
      Ctx(instance, contractAddress, hasSigner, hasReadonlyProvider, hasRefresh, journeyIdRef)
    }

    function Snapshot(): State
      reads this
    {
      State(message, isDecrypting, isRecording, handle, clear, progressLogs)
    }

    /** `isDecrypted` as the hook returns it. */
    predicate IsDecrypted()
      reads this
    {
      HoldsClear(Snapshot())
    }

    /** The first render: the ref starts at `journeyId ?? 1`, the state slots empty. */
    constructor (env: Addresses.Env, p: Params)
      ensures Context() == Ctx(p.instance, Addresses.SoberJourneyAddress(p.chainId, env), p.hasSigner, p.hasReadonlyProvider, p.hasRefresh, p.journeyId.GetOr(1))
      ensures Snapshot() == State(NoNotice, false, false, None, None, [])
    {
      this.env := env;
      instance := p.instance;
      contractAddress := Addresses.SoberJourneyAddress(p.chainId, env);
      hasSigner := p.hasSigner;
      hasReadonlyProvider := p.hasReadonlyProvider;
      hasRefresh := p.hasRefresh;
      journeyIdRef := p.journeyId.GetOr(1);
      message := NoNotice;
      isDecrypting := false;
      isRecording := false;
      handle := None;
      clear := None;
      progressLogs := [];
    }

    /** A later render: new parameters; the ref follows a truthy `journeyId` only. */
    method Rerender(p: Params)
      modifies this
      ensures Context() == Ctx(p.instance, Addresses.SoberJourneyAddress(p.chainId, env), p.hasSigner, p.hasReadonlyProvider, p.hasRefresh,
                               if p.journeyId.Some? && p.journeyId.value != 0 then p.journeyId.value else old(journeyIdRef))
      ensures Snapshot() == old(Snapshot())
    {
      instance := p.instance;
      contractAddress := Addresses.SoberJourneyAddress(p.chainId, env);
      hasSigner := p.hasSigner;
      hasReadonlyProvider := p.hasReadonlyProvider;
      hasRefresh := p.hasRefresh;
      if p.journeyId.Some? && p.journeyId.value != 0 && journeyIdRef != p.journeyId.value {
        journeyIdRef := p.journeyId.value;
      }
    }

    /** `refreshEncryptedProgressDays` */
    method RefreshEncryptedProgressDays(chain: Chain)
      modifies this, chain
      ensures var r := RefreshSpec(old(Context()), old(Snapshot()), chain.script, |old(chain.log)|);
        Context() == old(Context()) && Snapshot() == r.state && chain.log == old(chain.log) + r.calls
    {
      if !CanReadAsSigner(Context()) { return; }
      message := LoadingHandle;
      var a := chain.GetAddress();
      if a.Threw? {
        message := HandleReadFailed(a.error);
        return;
      }
      var h := chain.ReadHandle(journeyIdRef, a.value);
      if h.Threw? {
        message := HandleReadFailed(h.error);
        return;
      }
      handle := Some(h.value);
      message := HandleLoaded;
    }

    /** `loadProgressHistory` */
    method LoadProgressHistory(chain: Chain)
      modifies this, chain
      ensures var r := HistorySpec(old(Context()), old(Snapshot()), chain.script, |old(chain.log)|);
        Context() == old(Context()) && Snapshot() == r.state && chain.log == old(chain.log) + r.calls
    {
      if !CanReadAsSigner(Context()) { return; }
      var me := chain.GetAddress();
      if me.Threw? {
        message := HistoryFailed(me.error);
        return;
      }
      var logs := chain.Query(ProgressOfJourney(journeyIdRef), None, None);
      if logs.Threw? {
        message := HistoryFailed(logs.error);
        return;
      }
      progressLogs := History(logs.value, journeyIdRef, me.value);
    }

    /** `decryptProgressDays`; what it throws is returned. */
    method DecryptProgressDays(chain: Chain) returns (thrown: Option<Thrown>)
      modifies this, chain
      ensures var r := DecryptSpec(old(Context()), old(Snapshot()), chain.script, |old(chain.log)|);
        Context() == old(Context()) && Snapshot() == r.state && chain.log == old(chain.log) + r.calls && thrown == r.thrown
    {
      thrown := None;
      if !(CanWrite(Context()) && Truthy(handle)) { return; }
      isDecrypting := true;
      var contract := contractAddress.value;
      var sig := chain.Sign(instance.value, [contract]);
      if sig.Threw? {
        thrown := Some(sig.error);
      } else if sig.value.None? {
        message := NoSignature;
      } else {
        var res := chain.Decrypt(instance.value, handle.value, contract, sig.value.value);
        if res.Threw? {
          thrown := Some(res.error);
        } else {
          var v := if handle.value in res.value then Some(res.value[handle.value]) else None;
          clear := v;
          message := Decrypted(v);
        }
      }
      isDecrypting := false;
    }

        /** `tryOnce` inside `recordProgress`, started in context `c`, state `s` and
        at position `n` of the record; what it throws is returned. */
    method TryOnce(chain: Chain, reportCID: Option<string>, ghost c: Ctx, ghost s: State, ghost n: nat)
      returns (thrown: Option<Thrown>)
      requires Context() == c && Snapshot() == s && |chain.log| == n
      modifies this, chain
      ensures var r := AttemptSpec(c, s, chain.script, n, reportCID);
        Context() == c && Snapshot() == r.state && chain.log == old(chain.log) + r.calls && thrown == r.thrown
    {
      thrown := None;
      if !CanWrite(Context()) { return; }
      ghost var sub := Submit(c.instance.value, c.contract.value, c.journeyId, chain.script, n, reportCID);
      var receipt := SubmitProgress(chain, instance.value, contractAddress.value, journeyIdRef, reportCID);
      if receipt.Threw? {
        thrown := Some(receipt.error);
        return;
      }
      message := Recorded(HashOf(receipt.value));
      ghost var s1 := s.(message := Recorded(ReceiptHash(sub)));
      ReloadAfterReceipt(chain, c, s1, n + 4);
      AppendAssoc(old(chain.log), sub.calls, Reload(c, s1, chain.script, n + 4).calls);
    }

    /** The two awaited callbacks after the receipt. */
    method ReloadAfterReceipt(chain: Chain, ghost c: Ctx, ghost s: State, ghost n: nat)
      requires Context() == c && Snapshot() == s && |chain.log| == n
      modifies this, chain
      ensures var r := Reload(c, s, chain.script, n);
        Context() == c && Snapshot() == r.state && chain.log == old(chain.log) + r.calls
    {
      ghost var r1 := RefreshSpec(c, s, chain.script, n);
      RefreshEncryptedProgressDays(chain);
      ghost var r2 := HistorySpec(Context(), Snapshot(), chain.script, |chain.log|);
      LoadProgressHistory(chain);
      AppendAssoc(old(chain.log), r1.calls, r2.calls);
    }

    /** The `catch` clause of `recordProgress`. */
    method Catch(chain: Chain, e: Thrown, reportCID: Option<string>, ghost c: Ctx, ghost s: State, ghost n: nat)
      requires Context() == c && Snapshot() == s && |chain.log| == n
      modifies this, chain
      ensures var r := CatchSpec(c, s, e, chain.script, n, reportCID);
        Context() == c && Snapshot() == r.state && chain.log == old(chain.log) + r.calls
    {
      var msg := MessageOrString(e);
      if IsTransientFault(msg) {
        message := RelayerDropped;
        RefreshAndRetry(chain, reportCID, c, s.(message := RelayerDropped), n);
      } else {
        message := RecordFailed(msg);
      }
    }

    /** The relayer-fault branch of the `catch`: `refreshFhevm?.()`, then `tryOnce` again. */
    method RefreshAndRetry(chain: Chain, reportCID: Option<string>, ghost c: Ctx, ghost s: State, ghost n: nat)
      requires Context() == c && Snapshot() == s && |chain.log| == n
      modifies this, chain
      ensures var r := Retried(c, AttemptSpec(c, s, chain.script, n + RefreshCount(c), reportCID));
        Context() == c && Snapshot() == r.state && chain.log == old(chain.log) + r.calls
    {
      if hasRefresh {
        var ignored := chain.Refresh();
      }
      assert chain.log == old(chain.log) + RefreshCalls(c);
      var e2 := TryOnce(chain, reportCID, c, s, n + RefreshCount(c));
      if e2.Some? {
        message := FailedAfterRefresh(e2.value);
      }
      AppendAssoc(old(chain.log), RefreshCalls(c), AttemptSpec(c, s, chain.script, n + RefreshCount(c), reportCID).calls);
    }

    /** The `try` and `catch` of `recordProgress`. */
    method Attempts(chain: Chain, reportCID: Option<string>, ghost c: Ctx, ghost s: State, ghost n: nat)
      requires Context() == c && Snapshot() == s && |chain.log| == n
      modifies this, chain
      ensures var r := AttemptsSpec(c, s, chain.script, n, reportCID);
        Context() == c && Snapshot() == r.state && chain.log == old(chain.log) + r.calls
    {
      ghost var r1 := AttemptSpec(c, s, chain.script, n, reportCID);
      var e := TryOnce(chain, reportCID, c, s, n);
      AttemptsThenCatch(c, s, chain.script, n, reportCID);
      if e.Some? {
        Catch(chain, e.value, reportCID, c, r1.state, n + |r1.calls|);
        AppendAssoc(old(chain.log), r1.calls, CatchSpec(c, r1.state, e.value, chain.script, n + |r1.calls|, reportCID).calls);
      }
    }

    /** `recordProgress` */
    method RecordProgress(chain: Chain, reportCID: Option<string>)
      modifies this, chain
      ensures var r := RecordSpec(old(Context()), old(Snapshot()), chain.script, |old(chain.log)|, reportCID);
        Context() == old(Context()) && Snapshot() == r.state && chain.log == old(chain.log) + r.calls
    {
      if !CanWrite(Context()) { return; }
      isRecording := true;
      message := Encrypting;
      Attempts(chain, reportCID, Context(), Snapshot(), |chain.log|);
      isRecording := false;
    }
  }
}
