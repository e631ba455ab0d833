/** The outside world the front end talks to (wallet signer, FHE instance,
    relayer, contracts, log queries, the pinning service), as an oracle whose
    answers are fixed in advance and which keeps a record of every call made. */
module Backend {
  import opened Wrappers
  import opened JsErrors
  import opened Events
  import opened Pinata

  /** A settled promise: its value, or what it was rejected with. */
  datatype Outcome<+T> = Ok(value: T) | Threw(error: Thrown)

  /** `input.encrypt()`: the first ciphertext handle and the input proof. */
  datatype Encrypted = Encrypted(handle: string, inputProof: string)

  /** A mined transaction's receipt. */
  datatype Receipt = Receipt(hash: string, blockNumber: nat, logs: seq<RawLog>)

  /** A decryption signature as `FhevmDecryptionSignature.loadOrSign` returns it. */
  datatype Signature = Signature(
    privateKey: string, publicKey: string, signature: string, contractAddresses: seq<string>,
    userAddress: string, startTimestamp: int, durationDays: int)

  /** A decrypted value: a bigint, a boolean or a string. */
  datatype ClearValue = ClearNumber(n: int) | ClearBool(b: bool) | ClearText(s: string)

  /** Which event logs a query asks for. */
  datatype LogFilter =
    | ProgressOfJourney(journeyId: int)
    | ProgressOfParticipant(participant: string)
    | AllJourneyStarted

  /** What an upload sends: the user's file, or the journey metadata document
      (of its fields, those the page computes rather than copies from the form). */
  datatype Payload = UserFile | JourneyMetadata(coverCid: Option<string>, days: int)

  /** The two badges of the badge contract. */
  datatype Badge = FirstBadge | ThirtyDayBadge

  /** One call to the outside world, with its arguments. */
  datatype Call =
    | GetAddress
    | EncryptInput(instance: nat, contract: string, user: string, values: seq<nat>)
    | SendRecordProgress(journeyId: int, reportCID: string, handle: string, inputProof: string)
    | SendStartJourney(journeyCID: string, start: int, end: int, days: int, requireEvidence: bool, verificationMode: int)
    | SendClaim(badge: Badge)
    | WaitFor(txHash: string)
    | ReadEncryptedProgressDays(journeyId: int, user: string)
    | ReadMinted(badge: Badge, user: string)
    | QueryLogs(filter: LogFilter, fromBlock: Option<nat>, toBlock: Option<nat>)
    | LoadOrSign(instance: nat, contracts: seq<string>)
    | UserDecrypt(instance: nat, handle: string, contract: string, signature: Signature)
    | RefreshInstance
    | PinataFetch(headers: Headers, payload: Payload)

  /** The answer to one call, by the kind of call; only the field of the call
      actually made at that position matters. */
  datatype Answer = Answer(
    address: Outcome<string>,
    encrypt: Outcome<Encrypted>,
    send: Outcome<string>,
    wait: Outcome<Option<Receipt>>,
    readHandle: Outcome<string>,
    query: Outcome<seq<RawLog>>,
    sign: Outcome<Option<Signature>>,
    decrypt: Outcome<map<string, ClearValue>>,
    refresh: Outcome<()>,
    fetch: Outcome<HttpResponse>,
    flag: Outcome<bool>)

  /** What a call past the end of a script gets: a rejection. */
  const Unanswered: Thrown := NewError("no answer")

  /** The answers, by the position of the call in the record. A run makes
      finitely many calls, so any run of a sequential environment is described
      by some script. */
  datatype Script = Script(answers: seq<Answer>) {
    function At(n: nat): Answer {
      if n < |answers| then answers[n]
      else Answer(Threw(Unanswered), Threw(Unanswered), Threw(Unanswered), Threw(Unanswered), Threw(Unanswered),
                  Threw(Unanswered), Threw(Unanswered), Threw(Unanswered), Threw(Unanswered), Threw(Unanswered), Threw(Unanswered))
    }
    function address(n: nat): Outcome<string> { At(n).address }
    function encrypt(n: nat): Outcome<Encrypted> { At(n).encrypt }
    function send(n: nat): Outcome<string> { At(n).send }
    function wait(n: nat): Outcome<Option<Receipt>> { At(n).wait }
    function readHandle(n: nat): Outcome<string> { At(n).readHandle }
    function query(n: nat): Outcome<seq<RawLog>> { At(n).query }
    function sign(n: nat): Outcome<Option<Signature>> { At(n).sign }
    function decrypt(n: nat): Outcome<map<string, ClearValue>> { At(n).decrypt }
    function refresh(n: nat): Outcome<()> { At(n).refresh }
    function fetch(n: nat): Outcome<HttpResponse> { At(n).fetch }
    function flag(n: nat): Outcome<bool> { At(n).flag }
  }

  /** The outside world: a script of answers and the record of calls so far. */
  class Chain {
    const script: Script
    var log: seq<Call>

    constructor (script: Script)
      ensures this.script == script && log == []
    {
      this.script := script;
      log := [];
    }

    /** `ethersSigner.getAddress()` */
    method GetAddress() returns (r: Outcome<string>)
      modifies this
      ensures log == old(log) + [Call.GetAddress] && r == script.address(|old(log)|)
    {
      r := script.address(|log|);
      log := log + [Call.GetAddress];
    }

    /** `instance.createEncryptedInput(contract, user)`, `add32` of each value, `encrypt()` */
    method Encrypt(instance: nat, contract: string, user: string, values: seq<nat>) returns (r: Outcome<Encrypted>)
      modifies this
      ensures log == old(log) + [EncryptInput(instance, contract, user, values)] && r == script.encrypt(|old(log)|)
    {
      r := script.encrypt(|log|);
      log := log + [EncryptInput(instance, contract, user, values)];
    }

    /** Submit a transaction; the answer is its hash. */
    method Send(call: Call) returns (r: Outcome<string>)
      requires call.SendRecordProgress? || call.SendStartJourney? || call.SendClaim?
      modifies this
      ensures log == old(log) + [call] && r == script.send(|old(log)|)
    {
      r := script.send(|log|);
      log := log + [call];
    }

    /** `tx.wait()`, which may give `null`. */
    method Wait(txHash: string) returns (r: Outcome<Option<Receipt>>)
      modifies this
      ensures log == old(log) + [WaitFor(txHash)] && r == script.wait(|old(log)|)
    {
      r := script.wait(|log|);
      log := log + [WaitFor(txHash)];
    }

    /** `getEncryptedProgressDays(journeyId, user)` */
    method ReadHandle(journeyId: int, user: string) returns (r: Outcome<string>)
      modifies this
      ensures log == old(log) + [ReadEncryptedProgressDays(journeyId, user)] && r == script.readHandle(|old(log)|)
    {
      r := script.readHandle(|log|);
      log := log + [ReadEncryptedProgressDays(journeyId, user)];
    }

    /** `mintedFirst(user)` or `mintedThirty(user)` on the badge contract */
    method ReadMinted(badge: Badge, user: string) returns (r: Outcome<bool>)
      modifies this
      ensures log == old(log) + [Call.ReadMinted(badge, user)] && r == script.flag(|old(log)|)
    {
      r := script.flag(|log|);
      log := log + [Call.ReadMinted(badge, user)];
    }

    /** `queryFilter(filter, fromBlock, toBlock)` */
    method Query(filter: LogFilter, fromBlock: Option<nat>, toBlock: Option<nat>) returns (r: Outcome<seq<RawLog>>)
      modifies this
      ensures log == old(log) + [QueryLogs(filter, fromBlock, toBlock)] && r == script.query(|old(log)|)
    {
      r := script.query(|log|);
      log := log + [QueryLogs(filter, fromBlock, toBlock)];
    }

    /** `FhevmDecryptionSignature.loadOrSign(instance, contracts, signer, storage)` */
    method Sign(instance: nat, contracts: seq<string>) returns (r: Outcome<Option<Signature>>)
      modifies this
      ensures log == old(log) + [LoadOrSign(instance, contracts)] && r == script.sign(|old(log)|)
    {
      r := script.sign(|log|);
      log := log + [LoadOrSign(instance, contracts)];
    }

    /** `instance.userDecrypt(...)`: clear values keyed by handle. */
    method Decrypt(instance: nat, handle: string, contract: string, sig: Signature) returns (r: Outcome<map<string, ClearValue>>)
      modifies this
      ensures log == old(log) + [UserDecrypt(instance, handle, contract, sig)] && r == script.decrypt(|old(log)|)
    {
      r := script.decrypt(|log|);
      log := log + [UserDecrypt(instance, handle, contract, sig)];
    }

    /** `refreshFhevm()` */
    method Refresh() returns (r: Outcome<()>)
      modifies this
      ensures log == old(log) + [RefreshInstance] && r == script.refresh(|old(log)|)
    {
      r := script.refresh(|log|);
      log := log + [RefreshInstance];
    }

    /** The `fetch` POST to the pinning endpoint. */
    method Fetch(headers: Headers, payload: Payload) returns (r: Outcome<HttpResponse>)
      modifies this
      ensures log == old(log) + [PinataFetch(headers, payload)] && r == script.fetch(|old(log)|)
    {
      r := script.fetch(|log|);
      log := log + [PinataFetch(headers, payload)];
    }
  }

  /** How many calls of a record satisfy `p`. */
  function CountIf(calls: seq<Call>, p: Call -> bool): (k: nat)
    ensures k <= |calls|
  {
    if calls == [] then 0 else (if p(calls[0]) then 1 else 0) + CountIf(calls[1..], p)
  }

  lemma {:induction false} CountIfAppend(a: seq<Call>, b: seq<Call>, p: Call -> bool)
    ensures CountIf(a + b, p) == CountIf(a, p) + CountIf(b, p)
  {
    if a != [] {
      CountIfAppend(a[1..], b, p);
      assert (a + b)[0] == a[0] && (a + b)[1..] == a[1..] + b;
    } else {
      assert a + b == b;
    }
  }

  /** The count is zero exactly when no call satisfies `p`. */
  lemma {:induction false} CountIfZeroIff(a: seq<Call>, p: Call -> bool)
    ensures CountIf(a, p) == 0 <==> forall i | 0 <= i < |a| :: !p(a[i])
  {
    if a != [] {
      CountIfZeroIff(a[1..], p);
      assert forall i | 1 <= i < |a| :: a[1..][i - 1] == a[i];
    }
  }

  lemma {:induction false} CountIfOnly(a: seq<Call>, p: Call -> bool, i: nat)
    requires i < |a| && p(a[i])
    requires forall j | 0 <= j < |a| && j != i :: !p(a[j])
    ensures CountIf(a, p) == 1
  {
    if i == 0 {
      CountIfZeroIff(a[1..], p);
    } else {
      assert !p(a[0]);
      CountIfOnly(a[1..], p, i - 1);
    }
  }

  /** A predicate that can hold only at position `i` counts at most once. */
  lemma CountIfAtMostAt(a: seq<Call>, p: Call -> bool, i: nat)
    requires forall j | 0 <= j < |a| && j != i :: !p(a[j])
    ensures CountIf(a, p) <= 1
  {
    if i < |a| && p(a[i]) { CountIfOnly(a, p, i); } else { CountIfZeroIff(a, p); }
  }

  /** Appending call records is associative; stated once so that the methods
      that add calls in several steps need not re-prove it. */
  lemma AppendAssoc(a: seq<Call>, b: seq<Call>, c: seq<Call>)
    ensures a + b + c == a + (b + c)
  {
  }
}
