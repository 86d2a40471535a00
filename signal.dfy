/** One lighting command for the keyboard's signal service: a record of
    string attributes set through fluent setters, the JSON body built from
    the whitelisted attributes, the path that deletes it, and the
    per-zone copies a list of zones stands for. */
module Signals {
  import opened Values
  import Names
  import Json
  import opened Transport

  const DefaultBackendUrl: string := "http://localhost:27301/"
  const DefaultPid: string := "DK5QPID"
  const DefaultEffect: string := "SET_COLOR"
  const DefaultZone: string := "KEY_Q"
  const DefaultClient: string := "Python Script"
  const DefaultName: string := ""
  const DefaultMessage: string := ""

  /** The default `endpoint` of `finalize`. */
  const SignalsEndpoint: string := "/api/1.0/signals"

  /** The exceptions the modelled code raises. */
  datatype Error = NameError(name: string) | IndexError(index: nat)

  datatype Result<T> = Ok(value: T) | Err(error: Error)

  /** A `color.RGB` value; its conversion to hex text belongs to the
      external color module and is passed in as a function. */
  datatype Rgb = Rgb(red: int, green: int, blue: int)

  /** The argument of `with_color`: text (or a list) stored as given, or an
      RGB value converted with `hex_format()`. */
  datatype ColorArg = Plain(value: Value) | FromRgb(rgb: Rgb)

  /** Keyword arguments given to `Signal(...)`; an absent one takes the
      attribute's default. */
  datatype Kwargs = Kwargs(
    backendUrl: Option<string>,
    zoneId: Option<Value>,
    color: Option<Value>,
    effect: Option<string>,
    pid: Option<string>,
    clientName: Option<string>,
    message: Option<string>,
    name: Option<string>)

  const NoKwargs: Kwargs := Kwargs(None, None, None, None, None, None, None, None)

  /** The attributes of a Signal at one moment. `clientNameAttribute` is the
      separate `client_name` attribute that `with_client_name` creates. */
  datatype SignalState = SignalState(
    backendUrl: string,
    zoneId: Value,
    color: Value,
    effect: string,
    pid: string,
    clientName: string,
    message: string,
    name: string,
    clientNameAttribute: Option<string>)

  /** The attributes of `Signal(**kw)`; `defaultColor` is the value of
      `DEFAULT_COLOR`, which the color module computes. */
  function Init(kw: Kwargs, defaultColor: string): SignalState
  {
    SignalState(
      kw.backendUrl.GetOr(DefaultBackendUrl),
      kw.zoneId.GetOr(Str(DefaultZone)),
      kw.color.GetOr(Str(defaultColor)),
      kw.effect.GetOr(DefaultEffect),
      kw.pid.GetOr(DefaultPid),
      kw.clientName.GetOr(DefaultClient),
      kw.message.GetOr(DefaultMessage),
      kw.name.GetOr(DefaultName),
      None)
  }

  /** The non-dunder attribute names of a Signal instance: its dataclass
      fields, `client_name` once set, and the methods of the class. */
  function Attributes(st: SignalState): seq<string>
  {
    ["backendUrl", "zoneId", "color", "effect", "pid", "clientName",
     "message", "name", "subscribers", "response"]
    + (if st.clientNameAttribute.Some? then ["client_name"] else [])
    + ["for_zone", "with_color", "with_effect", "with_pid", "with_client_name",
       "with_message", "with_name", "as_dict", "finalize", "delete"]
  }

  /** `getattr(self, key)` for a whitelisted key. */
  function GetAttribute(st: SignalState, key: string): Value
    requires key in Names.FieldNames
  {
    match key
    case "zoneId" => st.zoneId
    case "color" => st.color
    case "effect" => Str(st.effect)
    case "pid" => Str(st.pid)
    case "clientName" => Str(st.clientName)
    case "message" => Str(st.message)
    case _ => Str(st.name)
  }

  /** `dict(zip(keys, [getattr(self, key) for key in keys]))`, kept as an
      ordered sequence of pairs. */
  function Pairs(st: SignalState, keys: seq<string>): seq<(string, Value)>
    requires Names.Elems(keys) <= Names.FieldNames
  {
    seq(|keys|, i requires 0 <= i < |keys| =>
      assert keys[i] in Names.Elems(keys);
      (keys[i], GetAttribute(st, keys[i])))
  }

  /** The payload `finalize` sends: the whitelisted attributes with their
      values, in the order `dir()` gives them (lemma `PayloadKeysFollowDir`). */
  function Payload(st: SignalState): seq<(string, Value)>
  {
    Names.FieldOrderNames();
    Pairs(st, Names.FieldOrder)
  }

  lemma HasEveryField(st: SignalState)
    ensures Names.FieldNames <= Names.Elems(Attributes(st))
  {
    var a := Attributes(st);
    assert a[1] == "zoneId" && a[2] == "color" && a[3] == "effect" && a[4] == "pid";
    assert a[5] == "clientName" && a[6] == "message" && a[7] == "name";
  }

  /** The keys the source picks out of `dir(self)` are the seven whitelisted
      names in alphabetical order, whatever the signal's state; `backendUrl`,
      `subscribers`, `response` and `client_name` are never among them. */
  lemma PayloadKeysFollowDir(st: SignalState)
    ensures Names.PayloadKeys(Attributes(st)) == Names.FieldOrder
  {
    HasEveryField(st);
    Names.PayloadKeysAreFieldOrder(Attributes(st));
  }

  /** The body holds exactly the seven whitelisted attributes with their
      current values, in alphabetical order. */
  lemma PayloadFields(st: SignalState)
    ensures Payload(st) == [
      ("clientName", Str(st.clientName)),
      ("color", st.color),
      ("effect", Str(st.effect)),
      ("message", Str(st.message)),
      ("name", Str(st.name)),
      ("pid", Str(st.pid)),
      ("zoneId", st.zoneId)]
  {
    Names.FieldOrderNames();
  }

  /** The payload `Signal().finalize()` sends with every default in place:
      client "Python Script", effect SET_COLOR, pid DK5QPID, zone KEY_Q,
      empty message and name, and the default color. */
  lemma DefaultPayload(defaultColor: string)
    ensures Payload(Init(NoKwargs, defaultColor)) == [
      ("clientName", Str("Python Script")),
      ("color", Str(defaultColor)),
      ("effect", Str("SET_COLOR")),
      ("message", Str("")),
      ("name", Str("")),
      ("pid", Str("DK5QPID")),
      ("zoneId", Str("KEY_Q"))]
  {
    PayloadFields(Init(NoKwargs, defaultColor));
  }

  /** Setting `client_name` adds an attribute, but the keys picked out of
      `dir()` stay the same, so the body keeps `clientName`'s value. */
  lemma ClientNameNotSerialized(st: SignalState, clientName: string)
    ensures "client_name" in Attributes(st.(clientNameAttribute := Some(clientName)))
    ensures Names.PayloadKeys(Attributes(st.(clientNameAttribute := Some(clientName))))
         == Names.PayloadKeys(Attributes(st))
  {
    var st' := st.(clientNameAttribute := Some(clientName));
    assert Attributes(st')[10] == "client_name";
    PayloadKeysFollowDir(st);
    PayloadKeysFollowDir(st');
  }

  /** The DELETE request for a signal with the given attributes. */
  function DeleteRequest(st: SignalState): Request
  {
    Request.Delete(st.backendUrl, st.pid, st.zoneId)
  }

  /** `Signal().delete()` targets pid DK5QPID and zone KEY_Q on the default backend. */
  lemma DefaultDeleteRequest(defaultColor: string)
    ensures DeleteRequest(Init(NoKwargs, defaultColor)).backendUrl == "http://localhost:27301/"
    ensures Path(DeleteRequest(Init(NoKwargs, defaultColor))) == "/api/1.0/signals/pid/DK5QPID/zoneId/KEY_Q"
  {
  }

  /** The copies for zones `i..` of a signal whose `zoneId` is a list:
      copy `k` gets `zoneId[k]` and, when `color` is a list, `color[k]`;
      a missing `color[k]` raises IndexError. */
  function FanOutFrom(st: SignalState, i: nat): Result<seq<SignalState>>
    requires st.zoneId.List? && i <= |st.zoneId.items|
    decreases |st.zoneId.items| - i
  {
    if i == |st.zoneId.items| then Ok([])
    else if st.color.List? && i >= |st.color.items| then Err(IndexError(i))
    else
      var copy := st.(zoneId := Str(st.zoneId.items[i]),
                      color := if st.color.List? then Str(st.color.items[i]) else st.color);
      match FanOutFrom(st, i + 1)
      case Ok(rest) => Ok([copy] + rest)
      case Err(e) => Err(e)
  }

  /** The per-zone signals the loop of `finalize` builds from a list of
      zones, in index order. */
  function FanOut(st: SignalState): Result<seq<SignalState>>
    requires st.zoneId.List?
  {
    FanOutFrom(st, 0)
  }

  predicate ColorsTooShort(st: SignalState)
    requires st.zoneId.List?
  {
    st.color.List? && |st.color.items| < |st.zoneId.items|
  }

  lemma {:induction false} FanOutFromPairs(st: SignalState, i: nat)
    requires st.zoneId.List? && i <= |st.zoneId.items|
    requires ColorsTooShort(st) ==> i <= |st.color.items|
    ensures ColorsTooShort(st) ==> FanOutFrom(st, i) == Err(IndexError(|st.color.items|))
    ensures !ColorsTooShort(st) ==>
      && FanOutFrom(st, i).Ok?
      && |FanOutFrom(st, i).value| == |st.zoneId.items| - i
      && forall k :: i <= k < |st.zoneId.items| ==>
           FanOutFrom(st, i).value[k - i]
             == st.(zoneId := Str(st.zoneId.items[k]),
                    color := if st.color.List? then Str(st.color.items[k]) else st.color)
    decreases |st.zoneId.items| - i
  {
    if i < |st.zoneId.items| && !(st.color.List? && i >= |st.color.items|) {
      FanOutFromPairs(st, i + 1);
    }
  }

  /** Fan-out of `n` zones: `n` copies in order, copy `k` paired with
      `zoneId[k]` and with `color[k]` or the shared scalar color; no zones
      give no copies; a color list shorter than the zone list raises
      IndexError at its first missing index. */
  lemma FanOutPairs(st: SignalState)
    requires st.zoneId.List?
    ensures st.zoneId.items == [] ==> FanOut(st) == Ok([])
    ensures ColorsTooShort(st) ==> FanOut(st) == Err(IndexError(|st.color.items|))
    ensures !ColorsTooShort(st) ==>
      && FanOut(st).Ok?
      && |FanOut(st).value| == |st.zoneId.items|
      && forall k :: 0 <= k < |st.zoneId.items| ==>
           FanOut(st).value[k]
             == st.(zoneId := Str(st.zoneId.items[k]),
                    color := if st.color.List? then Str(st.color.items[k]) else st.color)
  {
    FanOutFromPairs(st, 0);
  }

  /** The value `with_color` stores. */
  function ColorValue(c: ColorArg, hexFormat: Rgb -> string): Value
  {
    match c
    case Plain(v) => v
    case FromRgb(rgb) => Str(hexFormat(rgb))
  }

  class Signal {
    var backendUrl: string
    var zoneId: Value
    var color: Value
    var effect: string
    var pid: string
    var clientName: string
    var message: string
    var name: string
    var clientNameAttribute: Option<string>

    function State(): SignalState
      reads this
    {
      SignalState(backendUrl, zoneId, color, effect, pid, clientName, message, name,
                  clientNameAttribute)
    }

    /** `Signal(**kw)`. */
    constructor (kw: Kwargs, defaultColor: string)
      ensures State() == Init(kw, defaultColor)
    {
      var st := Init(kw, defaultColor);
      backendUrl, zoneId, color, effect := st.backendUrl, st.zoneId, st.color, st.effect;
      pid, clientName, message, name := st.pid, st.clientName, st.message, st.name;
      clientNameAttribute := None;
    }

    /** Overwrites every attribute: what a per-signal hook does to the
        signal it is given. */
    method Become(st: SignalState)
      modifies this
      ensures State() == st
    {
      backendUrl, zoneId, color, effect := st.backendUrl, st.zoneId, st.color, st.effect;
      pid, clientName, message, name := st.pid, st.clientName, st.message, st.name;
      clientNameAttribute := st.clientNameAttribute;
    }

    method ForZone(zone: Value) returns (self: Signal)
      modifies this
      ensures self == this
      ensures State() == old(State()).(zoneId := zone)
    {
      zoneId := zone;
      self := this;
    }

    method WithColor(c: ColorArg, hexFormat: Rgb -> string) returns (self: Signal)
      modifies this
      ensures self == this
      ensures State() == old(State()).(color := ColorValue(c, hexFormat))
    {
      match c {
        case FromRgb(rgb) => color := Str(hexFormat(rgb));
        case Plain(v) => color := v;
      }
      self := this;
    }

    method WithEffect(effect: string) returns (self: Signal)
      modifies this
      ensures self == this
      ensures State() == old(State()).(effect := effect)
    {
      this.effect := effect;
      self := this;
    }

    method WithPid(pid: string) returns (self: Signal)
      modifies this
      ensures self == this
      ensures State() == old(State()).(pid := pid)
    {
      this.pid := pid;
      self := this;
    }

    /** Writes the attribute `client_name`; `clientName`, the one the body
        carries, keeps its value. */
    method WithClientName(clientName: string) returns (self: Signal)
      modifies this
      ensures self == this
      ensures State() == old(State()).(clientNameAttribute := Some(clientName))
      ensures Names.PayloadKeys(Attributes(State())) == Names.PayloadKeys(Attributes(old(State())))
    {
      clientNameAttribute := Some(clientName);
      self := this;
      ClientNameNotSerialized(old(State()), clientName);
    }

    method WithMessage(message: string) returns (self: Signal)
      modifies this
      ensures self == this
      ensures State() == old(State()).(message := message)
    {
      this.message := message;
      self := this;
    }

    method WithName(name: string) returns (self: Signal)
      modifies this
      ensures self == this
      ensures State() == old(State()).(name := name)
    {
      this.name := name;
      self := this;
    }

    /** `finalize(endpoint, publish)`. A single zone: the body is posted
        when `publish` is set, and the returned list is what iterating the
        reply yields followed by the body's characters (only the latter
        without publishing). A list of zones: the source's loop calls
        `deepcopy`, which the module never imports, so a non-empty list
        raises NameError before any request (and the `nublish` after it is
        unbound too); an empty list returns `[]`. The pairing that loop
        describes is `FanOut`. */
    method Finalize(endpoint: string, publish: bool, net: Network) returns (r: Result<seq<string>>)
      modifies net
      ensures zoneId.Str? ==>
        && r.Ok?
        && |Characters(Json.Dumps(Payload(State())))| <= |r.value|
        && r.value[|r.value| - |Characters(Json.Dumps(Payload(State())))|..]
             == Characters(Json.Dumps(Payload(State())))
        && (!publish ==> r.value == Characters(Json.Dumps(Payload(State()))))
        && net.log == old(net.log)
             + (if publish then [Request.Post(backendUrl, endpoint, Payload(State()))] else [])
      ensures zoneId == List([]) ==> r == Ok([]) && net.log == old(net.log)
      ensures zoneId.List? && zoneId.items != [] ==>
        r == Err(NameError("deepcopy")) && net.log == old(net.log)
    {
      if zoneId.List? {
        if zoneId.items == [] {
          return Ok([]);
        }
        return Err(NameError("deepcopy"));
      }
      var collected: seq<string> := [];
      var keys := Names.PayloadKeys(Attributes(State()));
      PayloadKeysFollowDir(State());
      var payload := Pairs(State(), keys);
      if publish {
        collected := net.Post(backendUrl, endpoint, payload);
      }
      var body := Json.Dumps(payload);
      var chars := ExtendByCharacters(collected, body);
      assert chars[|collected|..] == Characters(body);
      r := Ok(chars);
    }

    /** `delete()`. */
    method Delete(net: Network)
      modifies net
      ensures net.log == old(net.log) + [DeleteRequest(State())]
    {
      net.Delete(backendUrl, pid, zoneId);
    }
  }
}
