/** The relayer SDK loader: script tags in the document keyed by their source,
    the SDK cached on the window, and one in-flight loading promise shared by
    every caller. The browser's `load` and `error` events are the `Fire` method. */
module RelayerLoader {
  import opened Wrappers
  import opened JsErrors

  /** The SDK object the bundle puts on the window. */
  datatype Sdk = Sdk(id: nat)

  /** A script tag with `data-relayer-sdk` set to `src`; `loaded` is its
      `data-loaded="true"` attribute, `settled` whether the browser has already
      fired its `load` or `error` event. */
  datatype ScriptTag = ScriptTag(src: string, loaded: bool, settled: bool)

  /** Where the promise of `loadScript` stands when the call returns. */
  datatype Wait = Resolved | Rejected(error: Thrown) | Pending

  /** Where the shared loading promise stands: waiting for the local bundle,
      waiting for the CDN bundle, or settled with the SDK or an error. */
  datatype Stage = AwaitingLocal | AwaitingCdn | Settled(outcome: Result<Sdk, Thrown>)

  const BrowserOnly: string := "Relayer SDK can only be loaded in browser"
  const BundleMissing: string := "RelayerSDKBundle is not available on window after loading script"

  function LoadFailed(src: string): Thrown {
    NewError("Failed to load " + src)
  }

  /** The tag `querySelector` finds for `src`: the first one, if any. */
  function FindTag(tags: seq<ScriptTag>, src: string): (r: Option<nat>)
    ensures r.Some? ==> r.value < |tags| && tags[r.value].src == src
    ensures r.Some? ==> forall j | 0 <= j < r.value :: tags[j].src != src
    ensures r.None? <==> forall j | 0 <= j < |tags| :: tags[j].src != src
  {
    if tags == [] then None
    else if tags[0].src == src then Some(0)
    else
      var r := FindTag(tags[1..], src);
      if r.Some? then Some(r.value + 1) else None
  }

  /** No two tags share a source. */
  predicate UniqueSrcs(tags: seq<ScriptTag>) {
    forall i, j | 0 <= i < j < |tags| :: tags[i].src != tags[j].src
  }

  /** Every tag marked loaded has been settled by the browser. */
  predicate LoadedAreSettled(tags: seq<ScriptTag>) {
    forall i | 0 <= i < |tags| :: tags[i].loaded ==> tags[i].settled
  }

  /** The document after `loadScript(src)`: the existing tag is reused, else a
      fresh, unsettled one is appended. */
  function WithTag(tags: seq<ScriptTag>, src: string): (r: seq<ScriptTag>)
    ensures |tags| <= |r| <= |tags| + 1 && r[..|tags|] == tags
    ensures FindTag(r, src).Some?
    ensures |r| == |tags| + 1 <==> FindTag(tags, src).None?
    ensures |r| == |tags| + 1 ==> r[|tags|] == ScriptTag(src, false, false)
  {
    if FindTag(tags, src).Some? then tags
    else
      var r := tags + [ScriptTag(src, false, false)];
      assert r[..|tags|] == tags;
      assert r[|tags|].src == src;
      r
  }

  /** What the promise of `loadScript(src)` does at once: it resolves for an
      existing tag already marked loaded and waits for an event otherwise. */
  function ScriptWait(tags: seq<ScriptTag>, src: string): Wait {
    var i := FindTag(tags, src);
    if i.Some? && tags[i.value].loaded then Resolved else Pending
  }

  /** The tag of `src` after its `load` (`ok`) or `error` event: `onload`
      sets `data-loaded="true"`, and no other tag changes. */
  function MarkSettled(tags: seq<ScriptTag>, src: string, ok: bool): (r: seq<ScriptTag>)
    requires FindTag(tags, src).Some?
    ensures |r| == |tags|
    ensures forall j | 0 <= j < |tags| :: r[j].src == tags[j].src
    ensures r[FindTag(tags, src).value] == ScriptTag(src, ok, true)
    ensures forall j | 0 <= j < |tags| && j != FindTag(tags, src).value :: r[j] == tags[j]
  {
    var i := FindTag(tags, src).value;
    tags[i := tags[i].(loaded := ok, settled := true)]
  }

  /** The end of the loading sequence: the bundle the script put on the
      window becomes the SDK, and a missing bundle is an error. */
  function Finished(bundle: Option<Sdk>): (s: Stage)
    ensures s.Settled? && (s.outcome.Success? <==> bundle.Some?)
    ensures bundle.Some? ==> s.outcome.value == bundle.value
    ensures bundle.None? ==> s.outcome.error == NewError(BundleMissing)
  {
    if bundle.None? then Settled(Failure(NewError(BundleMissing))) else Settled(Success(bundle.value))
  }

  /** `loadScript` never adds a second tag for a source: the sources stay
      unique, and one tag carries `src` afterwards. */
  lemma {:induction false} WithTagKeepsSrcsUnique(tags: seq<ScriptTag>, src: string)
    requires UniqueSrcs(tags)
    ensures UniqueSrcs(WithTag(tags, src))
    ensures forall i, j | 0 <= i < j < |WithTag(tags, src)| :: !(WithTag(tags, src)[i].src == src && WithTag(tags, src)[j].src == src)
  {
    var r := WithTag(tags, src);
    if |r| == |tags| + 1 {
      forall i, j | 0 <= i < j < |r| ensures r[i].src != r[j].src {
        if j < |tags| {
          assert r[i] == tags[i] && r[j] == tags[j];
        } else {
          assert r[i] == tags[i];
        }
      }
    }
  }

  /** Asking again for a source already in the document changes nothing. */
  lemma WithTagIdempotent(tags: seq<ScriptTag>, src: string)
    ensures WithTag(WithTag(tags, src), src) == WithTag(tags, src)
  {
  }

  /** An event on a tag changes neither the sources nor which tag has which source. */
  lemma MarkSettledKeepsSrcs(tags: seq<ScriptTag>, src: string, ok: bool, other: string)
    requires FindTag(tags, src).Some?
    ensures UniqueSrcs(tags) ==> UniqueSrcs(MarkSettled(tags, src, ok))
    ensures FindTag(MarkSettled(tags, src, ok), other) == FindTag(tags, other)
  {
    SameSrcsSameFind(tags, MarkSettled(tags, src, ok), other);
  }

  lemma {:induction false} SameSrcsSameFind(a: seq<ScriptTag>, b: seq<ScriptTag>, src: string)
    requires |a| == |b| && forall j | 0 <= j < |a| :: a[j].src == b[j].src
    ensures FindTag(a, src) == FindTag(b, src)
  {
    if a != [] {
      SameSrcsSameFind(a[1..], b[1..], src);
    }
  }

  /** A tag that was in the document is still found at the same place once more are appended. */
  lemma {:induction false} FindTagInPrefix(tags: seq<ScriptTag>, more: seq<ScriptTag>, src: string)
    requires FindTag(tags, src).Some?
    ensures FindTag(tags + more, src) == FindTag(tags, src)
  {
    if tags[0].src != src {
      assert (tags + more)[1..] == tags[1..] + more;
      FindTagInPrefix(tags[1..], more, src);
    }
  }

  /** The document fits the loading sequence: one tag per source, loaded tags
      settled, an awaited bundle has its tag, and the CDN bundle is awaited only
      once the local tag has failed. */
  predicate TagsFit(tags: seq<ScriptTag>, stage: Option<Stage>, localUrl: string, cdnUrl: string) {
    && UniqueSrcs(tags)
    && LoadedAreSettled(tags)
    && (stage == Some(AwaitingLocal) ==> FindTag(tags, localUrl).Some?)
    && (stage == Some(AwaitingCdn) ==>
          && FindTag(tags, cdnUrl).Some? && FindTag(tags, localUrl).Some?
          && tags[FindTag(tags, localUrl).value].settled && !tags[FindTag(tags, localUrl).value].loaded)
  }

  /** An event on a tag the sequence is not waiting for keeps the document fitting it. */
  lemma MarkSettledFits(tags: seq<ScriptTag>, src: string, ok: bool, stage: Option<Stage>, localUrl: string, cdnUrl: string)
    requires TagsFit(tags, stage, localUrl, cdnUrl) && FindTag(tags, src).Some?
    requires !tags[FindTag(tags, src).value].settled
    requires stage == Some(AwaitingLocal) ==> src != localUrl
    ensures TagsFit(MarkSettled(tags, src, ok), stage, localUrl, cdnUrl)
  {
    MarkSettledKeepsSrcs(tags, src, ok, localUrl);
    MarkSettledKeepsSrcs(tags, src, ok, cdnUrl);
  }

  /** A call's reply: a value returned straight away (a settled promise of its
      own), or the shared loading promise. */
  datatype Reply = Returned(result: Result<Sdk, Thrown>) | Shared(flight: Flight)

  /** The shared loading promise (`__loadingPromise`). */
  class Flight {
    var stage: Stage

    constructor ()
      ensures stage == AwaitingLocal
    {
      stage := AwaitingLocal;
    }
  }

  /** The document's tags, `window.relayerSDK` and the module's loading slot. */
  class Loader {
    const inBrowser: bool
    const localUrl: string
    const cdnUrl: string
    var tags: seq<ScriptTag>
    var relayerSDK: Option<Sdk>
    var loading: Option<Flight>

    function FlightSet(): set<object>
      reads this
    {
      if loading.Some? then {loading.value} else {}
    }

    function StageOf(): Option<Stage>
      reads this, FlightSet()
    {
      if loading.Some? then Some(loading.value.stage) else None
    }

    /** The loader's invariant: one tag per source; an awaited bundle has its
        tag; a sequence that ended with the SDK has cached it, and nothing is
        cached while a sequence is unfinished or has failed; the CDN is only
        awaited once the local bundle has failed. */
    ghost predicate Valid()
      reads this, FlightSet()
    {
      && localUrl != cdnUrl
      && (loading.Some? ==> inBrowser)
      && TagsFit(tags, StageOf(), localUrl, cdnUrl)
      && (loading.Some? && loading.value.stage.Settled? && loading.value.stage.outcome.Success? ==>
            relayerSDK == Some(loading.value.stage.outcome.value))
      && (loading.Some? && !(loading.value.stage.Settled? && loading.value.stage.outcome.Success?) ==>
            relayerSDK.None?)
    }

    /** A page with the given tags already in the document and the given cached SDK. */
    constructor (inBrowser: bool, localUrl: string, cdnUrl: string, existing: seq<ScriptTag>, cached: Option<Sdk>)
      requires localUrl != cdnUrl && UniqueSrcs(existing) && LoadedAreSettled(existing)
      ensures Valid()
      ensures this.inBrowser == inBrowser && this.localUrl == localUrl && this.cdnUrl == cdnUrl
      ensures tags == existing && relayerSDK == cached && loading == None
    {
      this.inBrowser := inBrowser;
      this.localUrl := localUrl;
      this.cdnUrl := cdnUrl;
      tags := existing;
      relayerSDK := cached;
      loading := None;
    }

    /** `loadScript(src)`: reuse the tag of `src` or append one. */
    method LoadScript(src: string) returns (w: Wait)
      requires UniqueSrcs(tags)
      modifies this
      ensures UniqueSrcs(tags)
      ensures tags == (if inBrowser then WithTag(old(tags), src) else old(tags))
      ensures w == (if inBrowser then ScriptWait(old(tags), src) else Rejected(NewError(BrowserOnly)))
      ensures relayerSDK == old(relayerSDK) && loading == old(loading)
    {
      if !inBrowser {
        return Rejected(NewError(BrowserOnly));
      }
      var existing := FindTag(tags, src);
      if existing.Some? {
        w := if tags[existing.value].loaded then Resolved else Pending;
        return;
      }
      WithTagKeepsSrcsUnique(tags, src);
      tags := tags + [ScriptTag(src, false, false)];
      w := Pending;
    }

    /** The continuation after a bundle loaded: cache the SDK or fail. */
    method Finish(f: Flight, bundle: Option<Sdk>)
      requires loading == Some(f)
      modifies this, f
      ensures f.stage == Finished(bundle)
      ensures relayerSDK == (if bundle.Some? then bundle else old(relayerSDK))
      ensures tags == old(tags) && loading == old(loading)
    {
      if bundle.None? {
        f.stage := Settled(Failure(NewError(BundleMissing)));
      } else {
        relayerSDK := bundle;
        f.stage := Settled(Success(bundle.value));
      }
    }

    /** `loadRelayerSDK()`. `bundle` is `window.RelayerSDKBundle` at the moment
        the loading sequence resumes, when the local tag is already loaded. */
    method LoadRelayerSDK(bundle: Option<Sdk>) returns (r: Reply)
      requires Valid()
      modifies this
      ensures Valid()
      ensures !inBrowser ==>
        r == Returned(Failure(NewError(BrowserOnly))) && tags == old(tags) && loading == old(loading)
      ensures inBrowser && old(relayerSDK).Some? ==>
        r == Returned(Success(old(relayerSDK).value)) && tags == old(tags) && loading == old(loading)
      ensures inBrowser && old(relayerSDK).None? && old(loading).Some? ==>
        r == Shared(old(loading).value) && tags == old(tags) && loading == old(loading)
        && old(loading).value.stage == old(loading.value.stage)
      ensures inBrowser && old(relayerSDK).None? && old(loading).None? ==>
        && loading.Some? && fresh(loading.value) && r == Shared(loading.value)
        && tags == WithTag(old(tags), localUrl)
        && loading.value.stage == (if ScriptWait(old(tags), localUrl) == Resolved then Finished(bundle) else AwaitingLocal)
      ensures old(relayerSDK).Some? || old(loading).Some? ==> relayerSDK == old(relayerSDK)
      ensures old(loading).Some? && old(loading.value.stage).Settled? && old(loading.value.stage).outcome.Failure? ==>
        r == Shared(old(loading).value) && loading.value.stage == old(loading.value.stage)
    {
      if !inBrowser {
        return Returned(Failure(NewError(BrowserOnly)));
      }
      if relayerSDK.Some? {
        return Returned(Success(relayerSDK.value));
      }
      if loading.Some? {
        return Shared(loading.value);
      }
      var f := new Flight();
      loading := Some(f);
      var w := LoadScript(localUrl);
      if w == Resolved {
        Finish(f, bundle);
      }
      r := Shared(f);
    }

    /** The browser fires `load` (`ok`) or `error` on the tag of `src`; the
        loading sequence resumes if it was waiting for that tag. `bundle` is
        `window.RelayerSDKBundle` at that moment. */
    method Fire(src: string, ok: bool, bundle: Option<Sdk>)
      requires Valid()
      requires FindTag(tags, src).Some? && !tags[FindTag(tags, src).value].settled
      modifies this, FlightSet()
      ensures Valid()
      ensures loading == old(loading)
      ensures var awaited := old(StageOf());
        var fallback := awaited == Some(AwaitingLocal) && src == localUrl && !ok;
        && tags == (if fallback then WithTag(MarkSettled(old(tags), src, ok), cdnUrl) else MarkSettled(old(tags), src, ok))
        && (awaited == Some(AwaitingLocal) && src == localUrl && ok ==> StageOf() == Some(Finished(bundle)))
        && (fallback ==>
              StageOf() == Some(if ScriptWait(MarkSettled(old(tags), src, ok), cdnUrl) == Resolved then Finished(bundle) else AwaitingCdn))
        && (awaited == Some(AwaitingCdn) && src == cdnUrl ==>
              StageOf() == Some(if ok then Finished(bundle) else Settled(Failure(LoadFailed(cdnUrl)))))
        && (!(awaited == Some(AwaitingLocal) && src == localUrl) && !(awaited == Some(AwaitingCdn) && src == cdnUrl) ==>
              StageOf() == awaited)
      ensures relayerSDK ==
        (if StageOf() != old(StageOf()) && StageOf() == Some(Finished(bundle)) && bundle.Some? then bundle else old(relayerSDK))
      ensures old(StageOf()).Some? && old(StageOf()).value.Settled? ==> StageOf() == old(StageOf())
    {
      var marked := MarkSettled(tags, src, ok);
      if loading.Some? && loading.value.stage == AwaitingLocal && src == localUrl {
        var f := loading.value;
        MarkSettledKeepsSrcs(tags, src, ok, localUrl);
        MarkSettledKeepsSrcs(tags, src, ok, cdnUrl);
        tags := marked;
        if ok {
          Finish(f, bundle);
        } else {
          FallBackToCdn(f, bundle);
        }
      } else if loading.Some? && loading.value.stage == AwaitingCdn && src == cdnUrl {
        var f := loading.value;
        MarkSettledFits(tags, src, ok, StageOf(), localUrl, cdnUrl);
        tags := marked;
        if ok {
          Finish(f, bundle);
        } else {
          f.stage := Settled(Failure(LoadFailed(cdnUrl)));
        }
      } else {
        MarkSettledFits(tags, src, ok, StageOf(), localUrl, cdnUrl);
        tags := marked;
      }
    }

    /** The `catch` of the loading sequence: the local tag failed, so load the CDN bundle. */
    method FallBackToCdn(f: Flight, bundle: Option<Sdk>)
      requires loading == Some(f) && f.stage == AwaitingLocal && inBrowser && localUrl != cdnUrl && relayerSDK.None?
      requires UniqueSrcs(tags) && LoadedAreSettled(tags) && FindTag(tags, localUrl).Some?
      requires tags[FindTag(tags, localUrl).value].settled && !tags[FindTag(tags, localUrl).value].loaded
      modifies this, f
      ensures Valid()
      ensures tags == WithTag(old(tags), cdnUrl) && loading == old(loading)
      ensures f.stage == (if ScriptWait(old(tags), cdnUrl) == Resolved then Finished(bundle) else AwaitingCdn)
      ensures relayerSDK == (if ScriptWait(old(tags), cdnUrl) == Resolved && bundle.Some? then bundle else old(relayerSDK))
    {
      var before := tags;
      var w := LoadScript(cdnUrl);
      FindTagInPrefix(before, tags[|before|..], localUrl);
      assert before + tags[|before|..] == tags;
      if w == Resolved {
        Finish(f, bundle);
      } else {
        f.stage := AwaitingCdn;
      }
    }
  }
}
