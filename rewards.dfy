/** The rewards page: the user's check-in count, the two badge flags, and the
    claims that set a flag once the claim transaction is confirmed. */
module Rewards {
  import opened Wrappers
  import opened JsErrors
  import Addresses
  import Text
  import opened Backend

  /** The page's state. */
  datatype Shown = Shown(myCount: nat, mintedFirst: bool, mintedThirty: bool, msg: string)

  /** What the page reads when it runs: a read-only provider, the two contract
      addresses and a signer. */
  datatype Ctx = Ctx(hasReadonlyProvider: bool, challenge: Option<string>, badge: Option<string>, hasSigner: bool)

  /** An operation's effect: the new state and the calls it made. */
  datatype PageRun = PageRun(shown: Shown, calls: seq<Call>)

  const FirstThreshold: nat := 1
  const ThirtyThreshold: nat := 30

  function ErrorText(e: Thrown): string {
    "Error: " + MessageOrString(e)
  }

  /** Whether a claim button is enabled: enough check-ins, not minted yet, and connected. */
  predicate ClaimEnabled(count: nat, threshold: nat, minted: bool, connected: bool) {
    !(!(count >= threshold) || minted || !connected)
  }

  /** The two buttons: the first needs one check-in, the other thirty; neither
      is enabled once its badge is minted or without a connection. */
  lemma ClaimButtons(count: nat, minted: bool, connected: bool)
    ensures ClaimEnabled(count, FirstThreshold, minted, connected) <==> count >= 1 && !minted && connected
    ensures ClaimEnabled(count, ThirtyThreshold, minted, connected) <==> count >= 30 && !minted && connected
    ensures ClaimEnabled(count, ThirtyThreshold, minted, connected) ==> ClaimEnabled(count, FirstThreshold, minted, connected)
  {
  }

  /** More check-ins never disable a button. */
  lemma ClaimEnabledMonotone(count: nat, more: nat, threshold: nat, minted: bool, connected: bool)
    requires count <= more && ClaimEnabled(count, threshold, minted, connected)
    ensures ClaimEnabled(more, threshold, minted, connected)
  {
  }

  /** A flag after its read: the value read, or unchanged when the read fails. */
  function FlagAfter(flag: bool, read: Outcome<bool>): bool {
    if read.Ok? then read.value else flag
  }

  /** The effect: read the signer's address, count the `ProgressRecorded` logs
      the node returns for that participant over all journeys, then read both
      minted flags when there is a badge contract. */
  function LoadSpec(c: Ctx, s: Shown, sc: Script, n: nat): PageRun {
    if !c.hasReadonlyProvider || !Text.Truthy(c.challenge) || !c.hasSigner then PageRun(s, [])
    else
      var a := sc.address(n);
      if a.Threw? then PageRun(s.(msg := ErrorText(a.error)), [GetAddress])
      else
        var me := a.value;
        var calls := [GetAddress, QueryLogs(ProgressOfParticipant(me), Some(0), None)];
        var q := sc.query(n + 1);
        if q.Threw? then PageRun(s.(msg := ErrorText(q.error)), calls)
        else
          var s1 := s.(myCount := |q.value|);
          if !Text.Truthy(c.badge) then PageRun(s1, calls)
          else
            PageRun(s1.(mintedFirst := FlagAfter(s.mintedFirst, sc.flag(n + 2)),
                        mintedThirty := FlagAfter(s.mintedThirty, sc.flag(n + 3))),
                    calls + [ReadMinted(FirstBadge, me), ReadMinted(ThirtyDayBadge, me)])
  }

  /** The count is the number of logs the participant query returned, and the
      query names the participant and no journey. */
  lemma LoadCountsParticipantLogs(c: Ctx, s: Shown, sc: Script, n: nat)
    requires c.hasReadonlyProvider && Text.Truthy(c.challenge) && c.hasSigner
    requires sc.address(n).Ok? && sc.query(n + 1).Ok?
    ensures var r := LoadSpec(c, s, sc, n);
      && r.shown.myCount == |sc.query(n + 1).value|
      && |r.calls| >= 2
      && r.calls[..2] == [GetAddress, QueryLogs(ProgressOfParticipant(sc.address(n).value), Some(0), None)]
      && r.shown.msg == s.msg
  {
    var r := LoadSpec(c, s, sc, n);
    assert r.calls[..2] == [GetAddress, QueryLogs(ProgressOfParticipant(sc.address(n).value), Some(0), None)];
  }

  /** A failed read of a minted flag leaves that flag as it was, and the other
      flag's read still happens; without a badge contract neither is read. */
  lemma LoadReadsFlags(c: Ctx, s: Shown, sc: Script, n: nat)
    requires c.hasReadonlyProvider && Text.Truthy(c.challenge) && c.hasSigner
    requires sc.address(n).Ok? && sc.query(n + 1).Ok?
    ensures var r := LoadSpec(c, s, sc, n);
      && (Text.Truthy(c.badge) ==>
            && |r.calls| == 4
            && (sc.flag(n + 2).Threw? ==> r.shown.mintedFirst == s.mintedFirst)
            && (sc.flag(n + 2).Ok? ==> r.shown.mintedFirst == sc.flag(n + 2).value)
            && (sc.flag(n + 3).Threw? ==> r.shown.mintedThirty == s.mintedThirty)
            && (sc.flag(n + 3).Ok? ==> r.shown.mintedThirty == sc.flag(n + 3).value))
      && (!Text.Truthy(c.badge) ==>
            |r.calls| == 2 && r.shown.mintedFirst == s.mintedFirst && r.shown.mintedThirty == s.mintedThirty)
  {
  }

  /** A failed address or log read reports the error and changes nothing else. */
  lemma LoadFailure(c: Ctx, s: Shown, sc: Script, n: nat)
    requires c.hasReadonlyProvider && Text.Truthy(c.challenge) && c.hasSigner
    ensures var r := LoadSpec(c, s, sc, n);
      && (sc.address(n).Threw? ==> r.shown == s.(msg := ErrorText(sc.address(n).error)))
      && (sc.address(n).Ok? && sc.query(n + 1).Threw? ==> r.shown == s.(msg := ErrorText(sc.query(n + 1).error)))
  {
  }

  function ClaimingText(b: Badge): string {
    match b
    case FirstBadge => "Claiming first badge..."
    case ThirtyDayBadge => "Claiming 30-days badge..."
  }

  function ClaimedText(b: Badge): string {
    match b
    case FirstBadge => "Claimed first badge!"
    case ThirtyDayBadge => "Claimed 30-days badge!"
  }

  function Minted(s: Shown, b: Badge): bool {
    match b
    case FirstBadge => s.mintedFirst
    case ThirtyDayBadge => s.mintedThirty
  }

  function SetMinted(s: Shown, b: Badge): Shown {
    match b
    case FirstBadge => s.(mintedFirst := true)
    case ThirtyDayBadge => s.(mintedThirty := true)
  }

  /** `claimFirst` / `claimThirty`: submit the claim, wait for it, then set the flag. */
  function ClaimSpec(hasSigner: bool, badgeAddr: Option<string>, b: Badge, s: Shown, sc: Script, n: nat): PageRun {
    if !hasSigner || !Text.Truthy(badgeAddr) then PageRun(s, [])
    else
      var tx := sc.send(n);
      if tx.Threw? then PageRun(s.(msg := AsString(tx.error)), [SendClaim(b)])
      else
        var calls := [SendClaim(b), WaitFor(tx.value)];
        var w := sc.wait(n + 1);
        if w.Threw? then PageRun(s.(msg := AsString(w.error)), calls)
        else PageRun(SetMinted(s, b).(msg := ClaimedText(b)), calls)
  }

  /** A claim sets its flag exactly when the transaction was submitted and
      confirmed; otherwise the flags stay and the message is the error. The
      other badge's flag and the count never change. */
  lemma ClaimSetsFlagOnlyWhenConfirmed(hasSigner: bool, badgeAddr: Option<string>, b: Badge, s: Shown, sc: Script, n: nat)
    ensures var r := ClaimSpec(hasSigner, badgeAddr, b, s, sc, n);
      var confirmed := hasSigner && Text.Truthy(badgeAddr) && sc.send(n).Ok? && sc.wait(n + 1).Ok?;
      && (confirmed ==> Minted(r.shown, b) && r.shown.msg == ClaimedText(b))
      && (!confirmed ==> r.shown.mintedFirst == s.mintedFirst && r.shown.mintedThirty == s.mintedThirty)
      && (hasSigner && Text.Truthy(badgeAddr) && sc.send(n).Threw? ==> r.shown.msg == AsString(sc.send(n).error))
      && (hasSigner && Text.Truthy(badgeAddr) && sc.send(n).Ok? && sc.wait(n + 1).Threw? ==>
            r.shown.msg == AsString(sc.wait(n + 1).error))
      && r.shown.myCount == s.myCount
      && (b == FirstBadge ==> r.shown.mintedThirty == s.mintedThirty)
      && (b == ThirtyDayBadge ==> r.shown.mintedFirst == s.mintedFirst)
  {
  }

  /** A claim without a signer or a badge contract does nothing. */
  lemma ClaimNeedsSignerAndBadge(hasSigner: bool, badgeAddr: Option<string>, b: Badge, s: Shown, sc: Script, n: nat)
    ensures var r := ClaimSpec(hasSigner, badgeAddr, b, s, sc, n);
      (r.calls == []) <==> !hasSigner || !Text.Truthy(badgeAddr)
    ensures !hasSigner || !Text.Truthy(badgeAddr) ==> ClaimSpec(hasSigner, badgeAddr, b, s, sc, n).shown == s
  {
  }

  /** The page with its React state. */
  class RewardsPage {
    var myCount: nat
    var mintedFirst: bool
    var mintedThirty: bool
    var msg: string

    constructor ()
      ensures Snapshot() == Shown(0, false, false, "")
    {
      myCount := 0;
      mintedFirst := false;
      mintedThirty := false;
      msg := "";
    }

    function Snapshot(): Shown
      reads this
    {
      Shown(myCount, mintedFirst, mintedThirty, msg)
    }

    /** The effect of the page. */
    method Load(chain: Chain, c: Ctx)
      modifies this, chain
      ensures var r := LoadSpec(c, old(Snapshot()), chain.script, |old(chain.log)|);
        Snapshot() == r.shown && chain.log == old(chain.log) + r.calls
    {
      if !c.hasReadonlyProvider || !Text.Truthy(c.challenge) || !c.hasSigner {
        return;
      }
      var a := chain.GetAddress();
      if a.Threw? {
        msg := ErrorText(a.error);
        return;
      }
      var me := a.value;
      var logs := chain.Query(ProgressOfParticipant(me), Some(0), None);
      if logs.Threw? {
        msg := ErrorText(logs.error);
        return;
      }
      myCount := |logs.value|;
      if Text.Truthy(c.badge) {
        var first := chain.ReadMinted(FirstBadge, me);
        if first.Ok? {
          mintedFirst := first.value;
        }
        var thirty := chain.ReadMinted(ThirtyDayBadge, me);
        if thirty.Ok? {
          mintedThirty := thirty.value;
        }
      }
    }

    /** `claimFirst` (`b == FirstBadge`) or `claimThirty`. */
    method Claim(chain: Chain, hasSigner: bool, badgeAddr: Option<string>, b: Badge)
      modifies this, chain
      ensures var r := ClaimSpec(hasSigner, badgeAddr, b, old(Snapshot()), chain.script, |old(chain.log)|);
        Snapshot() == r.shown && chain.log == old(chain.log) + r.calls
    {
      if !hasSigner || !Text.Truthy(badgeAddr) {
        return;
      }
      msg := ClaimingText(b);
      var tx := chain.Send(SendClaim(b));
      if tx.Threw? {
        msg := AsString(tx.error);
        return;
      }
      var w := chain.Wait(tx.value);
      if w.Threw? {
        msg := AsString(w.error);
        return;
      }
      if b == FirstBadge {
        mintedFirst := true;
      } else {
        mintedThirty := true;
      }
      msg := ClaimedText(b);
    }
  }
}
