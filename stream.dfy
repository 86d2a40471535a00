/** Text typed onto the keyboard: every character of the upper-cased input
    becomes one signal of a session, aimed at the key `KEY_<character>` and
    published at once. */
module Streams {
  import opened Values
  import opened Transport
  import Signals
  import Sessions

  /** The zone of the key for a character. */
  function KeyZone(c: char): string
  {
    "KEY_" + [c]
  }

  /** A session's signal after `for_zone(KeyZone(c))`. */
  function KeySignal(seed: Signals.SignalState, c: char): Signals.SignalState
  {
    seed.(zoneId := Str(KeyZone(c)))
  }

  /** The request `finalize()` issues for that signal. */
  function KeyPost(seed: Signals.SignalState, c: char): Request
  {
    Request.Post(KeySignal(seed, c).backendUrl, Signals.SignalsEndpoint, Signals.Payload(KeySignal(seed, c)))
  }

  /** The requests for a text, one per character, in order. */
  function StreamRequests(seed: Signals.SignalState, text: string): seq<Request>
  {
    if text == [] then []
    else StreamRequests(seed, text[..|text| - 1]) + [KeyPost(seed, text[|text| - 1])]
  }

  lemma StreamRequestsSnoc(seed: Signals.SignalState, text: string, i: nat)
    requires i < |text|
    ensures StreamRequests(seed, text[..i + 1]) == StreamRequests(seed, text[..i]) + [KeyPost(seed, text[i])]
  {
    assert text[..i + 1][..i] == text[..i];
  }

  lemma {:induction false} StreamRequestsAt(seed: Signals.SignalState, text: string)
    ensures |StreamRequests(seed, text)| == |text|
    ensures forall i :: 0 <= i < |text| ==> StreamRequests(seed, text)[i] == KeyPost(seed, text[i])
  {
    if text != [] {
      StreamRequestsAt(seed, text[..|text| - 1]);
    }
  }

  /** Every key signal posts the seed's body with only the zone replaced:
      the session's color, effect, pid and other attributes go out as they are. */
  lemma KeyPayload(seed: Signals.SignalState, c: char)
    ensures Signals.Payload(KeySignal(seed, c))
      == Signals.Payload(seed)[..6] + [("zoneId", Str("KEY_" + [c]))]
  {
    Signals.PayloadFields(seed);
    Signals.PayloadFields(KeySignal(seed, c));
  }

  class SignalStream {
    const session: Sessions.QSession
    /** Seconds slept before each character. */
    const delay: nat

    constructor (delay: nat, session: Sessions.QSession)
      ensures this.delay == delay && this.session == session
    {
      this.delay := delay;
      this.session := session;
    }

    /** One character of `stream << text`:
        `self.session.signal().for_zone(key).finalize()`. */
    method Highlight(c: char, net: Network) returns (s: Signals.Signal)
      modifies session, net
      ensures fresh(s)
      ensures session.signals == old(session.signals) + [s]
      ensures s.State() == KeySignal(session.Seed(), c)
      ensures net.log == old(net.log) + [KeyPost(session.Seed(), c)]
    {
      s := session.Signal();
      s := s.ForZone(Str(KeyZone(c)));
      var _ := s.Finalize(Signals.SignalsEndpoint, true, net);
    }

    /** `stream << text`: for each character `c` of `text.upper()`, in order,
        one new session signal aimed at `KEY_<c>`, finalised with publishing
        on; returns the same stream. */
    method Feed(text: string, net: Network) returns (self: SignalStream)
      modifies session, net
      ensures self == this
      ensures |session.signals| == |old(session.signals)| + |Upper(text)|
      ensures session.signals[..|old(session.signals)|] == old(session.signals)
      ensures forall j :: 0 <= j < |old(session.signals)| ==>
        session.signals[j].State() == old(session.signals[j].State())
      ensures forall j :: 0 <= j < |Upper(text)| ==>
        && fresh(session.signals[|old(session.signals)| + j])
        && session.signals[|old(session.signals)| + j].State() == KeySignal(session.Seed(), Upper(text)[j])
      ensures net.log == old(net.log) + StreamRequests(session.Seed(), Upper(text))
    {
      var upper := Upper(text);
      ghost var seed := session.Seed();
      ghost var added: seq<Signals.Signal> := [];
      var i := 0;
      while i < |upper|
        invariant 0 <= i <= |upper| && |added| == i
        invariant session.signals == old(session.signals) + added
        invariant forall j :: 0 <= j < i ==> fresh(added[j]) && added[j].State() == KeySignal(seed, upper[j])
        invariant net.log == old(net.log) + StreamRequests(seed, upper[..i])
      {
        var s := Highlight(upper[i], net);
        added := added + [s];
        StreamRequestsSnoc(seed, upper, i);
        i := i + 1;
      }
      assert upper[..i] == upper;
      assert forall j :: 0 <= j < |upper| ==> session.signals[|old(session.signals)| + j] == added[j];
      self := this;
    }
  }

  /** The module-level part of the source: the default `session` argument of
      `SignalStream`, a non-deleting session evaluated once when the class
      is defined and then shared by every stream made without a session. */
  class StreamDefaults {
    const session: Sessions.QSession

    constructor (defaultColor: string)
      ensures fresh(session)
      ensures !session.deleteOnExit && session.signals == []
      ensures session.defaults == Signals.NoKwargs
      ensures forall st :: session.forEachSignal(st) == st
    {
      session := new Sessions.QSession(false, st => st, Signals.NoKwargs, defaultColor);
    }

    /** `SignalStream(delay, session)`; without a session, the shared default. */
    method NewStream(delay: nat, session: Option<Sessions.QSession>) returns (stream: SignalStream)
      ensures fresh(stream) && stream.delay == delay
      ensures stream.session == (if session.Some? then session.value else this.session)
    {
      stream := new SignalStream(delay, if session.Some? then session.value else this.session);
    }
  }
}
