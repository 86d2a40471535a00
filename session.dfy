/** A batch of signals sharing keyword defaults and a per-signal hook, used
    as a context manager: on scope exit every retained signal is deleted
    when the session was made with `delete_on_exit`. */
module Sessions {
  import opened Transport
  import Signals

  /** One DELETE per signal, in the order the signals are given. */
  function DeletePlan(states: seq<Signals.SignalState>): seq<Request>
  {
    if states == [] then []
    else DeletePlan(states[..|states| - 1]) + [Signals.DeleteRequest(states[|states| - 1])]
  }

  /** The plan holds exactly one delete per signal: the `i`-th addresses the
      pid and zone of the `i`-th signal. */
  lemma {:induction false} DeletePlanAt(states: seq<Signals.SignalState>)
    ensures |DeletePlan(states)| == |states|
    ensures forall i :: 0 <= i < |states| ==> DeletePlan(states)[i] == Signals.DeleteRequest(states[i])
  {
    if states != [] {
      DeletePlanAt(states[..|states| - 1]);
    }
  }

  lemma DeletePlanSnoc(states: seq<Signals.SignalState>, i: nat)
    requires i < |states|
    ensures DeletePlan(states[..i + 1]) == DeletePlan(states[..i]) + [Signals.DeleteRequest(states[i])]
  {
    assert states[..i + 1][..i] == states[..i];
  }

  /** The current attributes of each signal of a list. */
  function States(signals: seq<Signals.Signal>): seq<Signals.SignalState>
    reads set s | s in signals
  {
    if signals == [] then []
    else States(signals[..|signals| - 1]) + [signals[|signals| - 1].State()]
  }

  lemma {:induction false} StatesAt(signals: seq<Signals.Signal>)
    ensures |States(signals)| == |signals|
    ensures forall i :: 0 <= i < |signals| ==> States(signals)[i] == signals[i].State()
  {
    if signals != [] {
      StatesAt(signals[..|signals| - 1]);
    }
  }

  class QSession {
    const defaults: Signals.Kwargs
    const forEachSignal: Signals.SignalState -> Signals.SignalState
    const deleteOnExit: bool
    /** `DEFAULT_COLOR`, as the color module gives it. */
    const defaultColor: string
    var signals: seq<Signals.Signal>

    /** `QSession(delete_on_exit, for_each_signal, **defaults)`. */
    constructor (deleteOnExit: bool, forEachSignal: Signals.SignalState -> Signals.SignalState,
                 defaults: Signals.Kwargs, defaultColor: string)
      ensures this.deleteOnExit == deleteOnExit && this.forEachSignal == forEachSignal
      ensures this.defaults == defaults && this.defaultColor == defaultColor
      ensures signals == []
    {
      this.deleteOnExit := deleteOnExit;
      this.forEachSignal := forEachSignal;
      this.defaults := defaults;
      this.defaultColor := defaultColor;
      signals := [];
    }

    /** The attributes every signal of this session starts with: the
        session's defaults, then whatever the hook changes. */
    function Seed(): Signals.SignalState
    {
      forEachSignal(Signals.Init(defaults, defaultColor))
    }

    /** `signal()`: a new signal from the defaults, handed to the hook,
        appended to the retained list and returned. */
    method Signal() returns (s: Signals.Signal)
      modifies this
      ensures fresh(s)
      ensures s.State() == Seed()
      ensures signals == old(signals) + [s]
    {
      s := new Signals.Signal(defaults, defaultColor);
      s.Become(forEachSignal(s.State()));
      signals := signals + [s];
    }

    /** `__enter__`. */
    method Enter() returns (self: QSession)
      ensures self == this
    {
      self := this;
    }

    /** `__exit__`: one delete per retained signal, in list order, when
        `deleteOnExit` is set and none otherwise; never suppresses the
        exception raised in the scope. The source tests `delete_on_exit`
        inside its loop; the test does not change between iterations, so it
        is made once here. */
    method Exit(net: Network) returns (suppress: bool)
      modifies net
      ensures !suppress
      ensures net.log == old(net.log) + (if deleteOnExit then DeletePlan(States(signals)) else [])
    {
      suppress := false;
      if deleteOnExit {
        ghost var states := States(signals);
        StatesAt(signals);
        var i := 0;
        while i < |signals|
          invariant 0 <= i <= |signals|
          invariant net.log == old(net.log) + DeletePlan(states[..i])
        {
          signals[i].Delete(net);
          DeletePlanSnoc(states, i);
          i := i + 1;
        }
        assert states[..i] == states;
      }
    }
  }
}
