/**
 * The destination-changed listener of the verifier's `VerifierMainFragment`.
 * The verifier can stay open for a long time, so every navigation refreshes
 * the remote configuration, except the first one after a fresh start (the
 * app refreshes on start already). A deeplink that opened the app with a
 * `returnUri` launches the scanner once, on the first navigation after the
 * introduction is finished.
 */
module VerifierMainFragment {
  import opened Wrappers

  /** What the listener does besides updating its flags. */
  datatype Effect = RefreshConfig | LaunchScanner(returnUri: string)

  /** The listener's two flags. */
  datatype ListenerState = ListenerState(isFreshStart: bool, hasHandledDeeplink: bool)

  /** The flags as the fragment is created: a fresh start, no deeplink handled. */
  const InitialState := ListenerState(true, false)

  datatype StepResult = StepResult(state: ListenerState, effects: seq<Effect>)

  /** One destination change, with the introduction finished or not. */
  function Step(s: ListenerState, returnUri: Option<string>, introductionFinished: bool): (r: StepResult)
    ensures !introductionFinished ==> r == StepResult(s, [])
    ensures introductionFinished ==>
      && !r.state.isFreshStart
      && (RefreshConfig in r.effects <==> !s.isFreshStart)
      && (r.state.hasHandledDeeplink <==> s.hasHandledDeeplink || returnUri.Some?)
      && (forall u :: LaunchScanner(u) in r.effects <==> !s.hasHandledDeeplink && returnUri == Some(u))
      && |r.effects| <= 2
  {
    if !introductionFinished then StepResult(s, [])
    else
      var refresh := if !s.isFreshStart then [RefreshConfig] else [];
      if returnUri.Some? && !s.hasHandledDeeplink then
        StepResult(ListenerState(false, true), refresh + [LaunchScanner(returnUri.value)])
      else
        StepResult(ListenerState(false, s.hasHandledDeeplink), refresh)
  }

  /** A sequence of destination changes, each saying whether the introduction was finished at that moment. */
  function Run(s: ListenerState, returnUri: Option<string>, changes: seq<bool>): StepResult
    decreases |changes|
  {
    if changes == [] then StepResult(s, [])
    else
      var first := Step(s, returnUri, changes[0]);
      var rest := Run(first.state, returnUri, changes[1..]);
      StepResult(rest.state, first.effects + rest.effects)
  }

  function CountRefreshes(effects: seq<Effect>): nat
  {
    if effects == [] then 0 else (if effects[0].RefreshConfig? then 1 else 0) + CountRefreshes(effects[1..])
  }

  function CountLaunches(effects: seq<Effect>): nat
  {
    if effects == [] then 0 else (if effects[0].LaunchScanner? then 1 else 0) + CountLaunches(effects[1..])
  }

  /** The number of changes that happened with the introduction finished. */
  function CountFinished(changes: seq<bool>): nat
  {
    if changes == [] then 0 else (if changes[0] then 1 else 0) + CountFinished(changes[1..])
  }

  lemma {:induction false} CountsAppend(a: seq<Effect>, b: seq<Effect>)
    ensures CountRefreshes(a + b) == CountRefreshes(a) + CountRefreshes(b)
    ensures CountLaunches(a + b) == CountLaunches(a) + CountLaunches(b)
  {
    if a == [] {
      assert a + b == b;
    } else {
      assert (a + b)[1..] == a[1..] + b;
      CountsAppend(a[1..], b);
    }
  }

  /**
   * Over any sequence of destination changes: every finished change but the
   * first after a fresh start refreshes the configuration; the scanner is
   * launched at most once, only for a `returnUri`, and only if no deeplink
   * was handled before; a fresh start is never regained.
   */
  lemma {:induction false} RunSpec(s: ListenerState, returnUri: Option<string>, changes: seq<bool>)
    ensures var r := Run(s, returnUri, changes);
      var finished := CountFinished(changes);
      && CountRefreshes(r.effects) == (if s.isFreshStart && finished > 0 then finished - 1 else finished)
      && CountLaunches(r.effects) == (if !s.hasHandledDeeplink && returnUri.Some? && finished > 0 then 1 else 0)
      && (r.state.isFreshStart <==> s.isFreshStart && finished == 0)
      && (r.state.hasHandledDeeplink <==> s.hasHandledDeeplink || (returnUri.Some? && finished > 0))
    decreases |changes|
  {
    if changes != [] {
      var first := Step(s, returnUri, changes[0]);
      RunSpec(first.state, returnUri, changes[1..]);
      CountsAppend(first.effects, Run(first.state, returnUri, changes[1..]).effects);
      if changes[0] {
        var refresh: seq<Effect> := if !s.isFreshStart then [RefreshConfig] else [];
        assert CountRefreshes(refresh) == (if s.isFreshStart then 0 else 1);
        assert CountLaunches(refresh) == 0;
        if returnUri.Some? && !s.hasHandledDeeplink {
          CountsAppend(refresh, [LaunchScanner(returnUri.value)]);
        }
      }
    }
  }

  /** From the fragment's creation: at most one launch, none without a `returnUri`. */
  lemma ScannerLaunchedAtMostOnce(returnUri: Option<string>, changes: seq<bool>)
    ensures CountLaunches(Run(InitialState, returnUri, changes).effects) <= 1
    ensures returnUri.None? ==> CountLaunches(Run(InitialState, returnUri, changes).effects) == 0
  {
    RunSpec(InitialState, returnUri, changes);
  }

  /** The fragment: its two flags, the deeplink it was opened with, and the effects so far. */
  class VerifierMainFragment {
    var isFreshStart: bool
    var hasHandledDeeplink: bool
    const returnUri: Option<string>
    var effects: seq<Effect>

    constructor (returnUri: Option<string>)
      ensures isFreshStart && !hasHandledDeeplink && this.returnUri == returnUri && effects == []
    {
      isFreshStart := true;
      hasHandledDeeplink := false;
      this.returnUri := returnUri;
      effects := [];
    }

    function State(): ListenerState
      reads this
    {
      ListenerState(isFreshStart, hasHandledDeeplink)
    }

    /** The listener body, run on every destination change. */
    method OnDestinationChanged(introductionFinished: bool)
      modifies this
      ensures var r := Step(old(State()), returnUri, introductionFinished);
        State() == r.state && effects == old(effects) + r.effects
    {
      if introductionFinished {
        if !isFreshStart {
          effects := effects + [RefreshConfig];
        } else {
          isFreshStart := false;
        }
        if returnUri.Some? && !hasHandledDeeplink {
          effects := effects + [LaunchScanner(returnUri.value)];
          hasHandledDeeplink := true;
        }
      }
    }
  }
}
