/**
 * The sweep button (src/components/sweep/sweep-button.tsx): a five-state
 * machine driven by `handleSweep` and `reset`, and the rules that decide
 * what the component shows.
 *
 * The two awaits of `handleSweep` only wait on timers, so the handler is
 * modelled as running to completion; the statuses it sets, in order, are
 * returned as a trace. What its `catch` receives is an input (`Fault`).
 */
module SweepButton {
  import opened Wrappers
  import Chains

  datatype SweepStatus = Idle | Confirming | Sweeping | Success | Error

  /** A value caught by `catch (err)`: an `Error` with its message, or anything else. */
  datatype Thrown = ErrorObject(message: string) | OtherValue

  /** Whether, and during which await, the body of the `try` throws. */
  datatype Fault = NoFault | ThrowsWhileConfirming(thrown: Thrown) | ThrowsWhileSweeping(thrown: Thrown)

  /** The error text the `catch` stores. */
  function CaughtMessage(t: Thrown): (m: string)
    ensures t.OtherValue? ==> m == "Something went wrong"
    ensures t.ErrorObject? ==> m == t.message
  {
    match t
    case ErrorObject(message) => message
    case OtherValue => "Something went wrong"
  }

  /** `selectedChain` as a JavaScript condition: absent and chain id 0 are both false. */
  predicate Truthy(selectedChain: Option<Chains.ChainId>)
  {
    selectedChain.Some? && selectedChain.value != 0
  }

  /** `chainInfo`: the metadata of a truthy selected chain, when there is any. */
  function ChainInfo(selectedChain: Option<Chains.ChainId>): (r: Option<Chains.Meta>)
    ensures r.Some? <==> Truthy(selectedChain) && selectedChain.value in Chains.ChainMeta
    ensures r.Some? ==> r.value == Chains.ChainMeta[selectedChain.value]
  {
    if Truthy(selectedChain) then Chains.MetaOf(selectedChain.value) else None
  }

  /** The guard of `handleSweep`. */
  predicate CanStart(disabled: bool, selectedChain: Option<Chains.ChainId>)
  {
    !disabled && Truthy(selectedChain)
  }

  /** A sweep is under way. */
  predicate InProgress(status: SweepStatus)
  {
    status == Confirming || status == Sweeping
  }

  /** The `disabled` attribute of the main button. */
  predicate ButtonDisabled(disabled: bool, status: SweepStatus)
  {
    disabled || InProgress(status)
  }

  /** The error banner with "Try again" (an empty message is falsy and hides it). */
  predicate ShowsErrorBanner(status: SweepStatus, error: Option<string>)
  {
    status == Error && error.Some? && error.value != ""
  }

  /** The progress panel. */
  predicate ShowsProgressPanel(status: SweepStatus, selectedChain: Option<Chains.ChainId>)
  {
    (status == Sweeping || status == SweepStatus.Success) && ChainInfo(selectedChain).Some?
  }

  /** The "Select a chain to sweep" hint (a strict `=== null` test, unlike the guard). */
  predicate ShowsSelectPrompt(disabled: bool, selectedChain: Option<Chains.ChainId>)
  {
    disabled && selectedChain.None?
  }

  /** The main button's text. */
  function ButtonLabel(status: SweepStatus, selectedChain: Option<Chains.ChainId>): (text: string)
    ensures status == Idle && ChainInfo(selectedChain).Some? && ChainInfo(selectedChain).value.name != "" ==>
      text == "Sweep " + ChainInfo(selectedChain).value.name
    ensures status == Idle && (ChainInfo(selectedChain).None? || ChainInfo(selectedChain).value.name == "") ==>
      text == "Sweep Chain"
    ensures status == Confirming ==> text == "Confirm in Wallet..."
    ensures status == Sweeping ==> text == "Sweeping..."
    ensures status == SweepStatus.Success ==> text == "Sweep Complete!"
    ensures status == Error ==> text == "Sweep Failed"
  {
    match status
    case Idle =>
      var info := ChainInfo(selectedChain);
      "Sweep " + (if info.Some? && info.value.name != "" then info.value.name else "Chain")
    case Confirming => "Confirm in Wallet..."
    case Sweeping => "Sweeping..."
    case Success => "Sweep Complete!"
    case Error => "Sweep Failed"
  }

  /** The statuses a started sweep sets, in order. */
  function Run(fault: Fault): seq<SweepStatus>
  {
    match fault
    case NoFault => [Confirming, Sweeping, SweepStatus.Success]
    case ThrowsWhileConfirming(_) => [Confirming, Error]
    case ThrowsWhileSweeping(_) => [Confirming, Sweeping, Error]
  }

  /** The error a started sweep leaves: cleared, or the caught message. */
  function Outcome(fault: Fault): Option<string>
  {
    if fault.NoFault? then None else Some(CaughtMessage(fault.thrown))
  }

  /**
   * A started sweep opens with `confirming`, keeps the button disabled
   * until it settles, and settles in `success` exactly when nothing was
   * thrown, else in `error` with the caught message.
   */
  lemma RunShape(fault: Fault)
    ensures var run := Run(fault);
      && |run| >= 2 && run[0] == Confirming
      && (forall j :: 0 <= j < |run| - 1 ==> InProgress(run[j]))
      && !InProgress(run[|run| - 1])
      && (run[|run| - 1] == SweepStatus.Success <==> fault.NoFault?)
      && (run[|run| - 1] == Error <==> !fault.NoFault?)
      && (fault.NoFault? ==> run == [Confirming, Sweeping, SweepStatus.Success] && Outcome(fault) == None)
      && (!fault.NoFault? ==> Outcome(fault) == Some(CaughtMessage(fault.thrown)))
  {
    match fault
    case NoFault =>
    case ThrowsWhileConfirming(_) =>
    case ThrowsWhileSweeping(_) =>
  }

  /**
   * After a failed sweep the banner shows unless the thrown `Error` had an
   * empty message; a non-`Error` value always shows the fallback text.
   */
  lemma BannerAfterFault(fault: Fault)
    requires !fault.NoFault?
    ensures var run := Run(fault);
      ShowsErrorBanner(run[|run| - 1], Outcome(fault)) <==>
        (fault.thrown.OtherValue? || fault.thrown.message != "")
  {
    assert Run(fault)[|Run(fault)| - 1] == Error;
  }

  /**
   * During a run the progress panel shows from `sweeping` on, unless the
   * sweep failed or the chain has no metadata; it never shows while
   * confirming or after an error.
   */
  lemma PanelDuringRun(fault: Fault, selectedChain: Option<Chains.ChainId>)
    ensures var run := Run(fault);
      forall j :: 0 <= j < |run| ==>
        (ShowsProgressPanel(run[j], selectedChain) <==>
           j >= 1 && run[j] != Error && ChainInfo(selectedChain).Some?)
  {
    assert Run(fault)[0] == Confirming;
  }

  /** The "Select a chain" hint only shows when a click would do nothing. */
  lemma SelectPromptMeansIdleClick(disabled: bool, selectedChain: Option<Chains.ChainId>)
    ensures ShowsSelectPrompt(disabled, selectedChain) ==> !CanStart(disabled, selectedChain)
    ensures ShowsSelectPrompt(disabled, selectedChain) <==> disabled && !Truthy(selectedChain) && selectedChain != Some(0)
  {
  }

  class Button {
    var status: SweepStatus
    var error: Option<string>

    /** The initial state: `idle`, no error. */
    constructor ()
      ensures status == Idle && error == None
    {
      status := Idle;
      error := None;
    }

    /**
     * `handleSweep`: nothing when the guard fails; otherwise the statuses
     * of `Run(fault)` in turn, the error cleared on entry and set by the
     * `catch`.
     */
    method HandleSweep(disabled: bool, selectedChain: Option<Chains.ChainId>, fault: Fault)
      returns (trace: seq<SweepStatus>)
      modifies this
      ensures !CanStart(disabled, selectedChain) ==>
        trace == [] && status == old(status) && error == old(error)
      ensures CanStart(disabled, selectedChain) ==>
        trace == Run(fault) && status == trace[|trace| - 1] && error == Outcome(fault)
    {
      trace := [];
      if disabled || !Truthy(selectedChain) {
        return;
      }
      status := Confirming;
      error := None;
      trace := trace + [status];
      if fault.ThrowsWhileConfirming? {
        status := Error;
        error := Some(CaughtMessage(fault.thrown));
        trace := trace + [status];
        return;
      }
      status := Sweeping;
      trace := trace + [status];
      if fault.ThrowsWhileSweeping? {
        status := Error;
        error := Some(CaughtMessage(fault.thrown));
        trace := trace + [status];
        return;
      }
      status := SweepStatus.Success;
      trace := trace + [status];
    }

    /** A click on the main button: a disabled button ignores it. */
    method Click(disabled: bool, selectedChain: Option<Chains.ChainId>, fault: Fault)
      returns (trace: seq<SweepStatus>)
      modifies this
      ensures ButtonDisabled(disabled, old(status)) ==>
        trace == [] && status == old(status) && error == old(error)
      ensures !ButtonDisabled(disabled, old(status)) && CanStart(disabled, selectedChain) ==>
        trace == Run(fault) && status == trace[|trace| - 1] && error == Outcome(fault)
      ensures !CanStart(disabled, selectedChain) ==>
        trace == [] && status == old(status) && error == old(error)
    {
      trace := [];
      if ButtonDisabled(disabled, status) {
        return;
      }
      trace := HandleSweep(disabled, selectedChain, fault);
    }

    /** `reset`, from any state. */
    method Reset()
      modifies this
      ensures status == Idle && error == None
    {
      status := Idle;
      error := None;
    }
  }

  /**
   * A settled sweep can be followed by another. "Try again" sits inside the
   * error banner, so it can be pressed only when the failure left a
   * non-empty message; after it the next click on an enabled button starts
   * over.
   */
  method RetryAfterFailure(b: Button, selectedChain: Option<Chains.ChainId>, first: Fault, second: Fault)
    returns (traces: seq<seq<SweepStatus>>)
    requires Truthy(selectedChain) && !first.NoFault?
    requires first.thrown.OtherValue? || first.thrown.message != ""
    modifies b
    ensures traces == [Run(first), Run(second)]
    ensures b.status == (if second.NoFault? then SweepStatus.Success else Error) && b.error == Outcome(second)
  {
    var t1 := b.HandleSweep(false, selectedChain, first);
    BannerAfterFault(first);
    assert ShowsErrorBanner(b.status, b.error);
    b.Reset();
    var t2 := b.Click(false, selectedChain, second);
    RunShape(second);
    traces := [t1, t2];
  }
}
