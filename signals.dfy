/**
 * `signalHandler` in src/cannelloni.c, installed for SIGTERM and SIGINT: it
 * counts the signals, asks the data loop to stop after the current transfer,
 * and gives up on a graceful stop at the fifth signal.
 */
module Signals {

  /** The most signals the program takes before it exits. */
  const MaxSignals: nat := 5

  /** The globals the handler touches, and whether it has called `exit(-1)`. */
  datatype HandlerState = HandlerState(numSignals: nat, doTerminate: bool, exited: bool)

  /** Before any signal. */
  const Initial := HandlerState(0, false, false)

  /**
   * One signal.  The counter is incremented first; from the fifth signal on
   * the process exits, otherwise doTerminate is set.
   */
  function OnSignal(st: HandlerState): (r: HandlerState)
    requires !st.exited
    ensures r.numSignals == st.numSignals + 1
    ensures r.exited <==> r.numSignals >= MaxSignals
    ensures r.doTerminate <==> st.doTerminate || r.numSignals < MaxSignals
  {
    var numSignals := st.numSignals + 1;
    if numSignals >= MaxSignals then st.(numSignals := numSignals, exited := true)
    else st.(numSignals := numSignals, doTerminate := true)
  }

  /** `n` signals from the start; once the process has exited, nothing is handled any more. */
  function AfterSignals(n: nat): (st: HandlerState)
    ensures st.numSignals <= MaxSignals && (st.exited <==> st.numSignals == MaxSignals)
  {
    if n == 0 then Initial
    else
      var before := AfterSignals(n - 1);
      if before.exited then before else OnSignal(before)
  }

  /**
   * The first four signals only ask for a stop; the fifth ends the process.
   * After `n` signals the counter is `n` (but never more than 5), a stop has
   * been asked for as soon as one signal arrived, and the process has exited
   * exactly when five have arrived.
   */
  lemma {:induction false} SignalsCounted(n: nat)
    ensures AfterSignals(n).numSignals == if n < MaxSignals then n else MaxSignals
    ensures AfterSignals(n).exited <==> n >= MaxSignals
    ensures AfterSignals(n).doTerminate <==> 1 <= n
  {
    if n > 0 {
      SignalsCounted(n - 1);
    }
  }

  /** The handler's globals, updated in place by each signal. */
  class SignalHandler {
    var numSignals: nat
    var doTerminate: bool
    var exited: bool

    function State(): HandlerState
      reads this
    {
      HandlerState(numSignals, doTerminate, exited)
    }

    constructor ()
      ensures State() == Initial
    {
      numSignals := 0;
      doTerminate := false;
      exited := false;
    }

    /** `signalHandler`. */
    method Handle()
      requires !exited
      modifies this
      ensures State() == OnSignal(old(State()))
    {
      numSignals := numSignals + 1;
      if numSignals >= MaxSignals {
        exited := true;
      } else {
        doTerminate := true;
      }
    }
  }
}
