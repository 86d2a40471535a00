/** The HTTP interface of the signal service, with the calls of the client
    kept as records appended to a log in the order they are issued. A record
    keeps the backend URL given to `urljoin`, and what the request says: the
    payload a POST serialises as its body, the pid and zone a DELETE writes
    into its path. Every request carries `Content-type: application/json`. */
module Transport {
  import opened Values

  datatype Request =
    | Post(backendUrl: string, endpoint: string, payload: seq<(string, Value)>)
    | Delete(backendUrl: string, pid: string, zoneId: Value)

  const DeletePrefix: string := "/api/1.0/signals/pid/"
  const ZoneSeparator: string := "/zoneId/"

  /** `f"/api/1.0/signals/pid/{pid}/zoneId/{zoneId}"`. */
  function DeletePath(pid: string, zone: string): string
  {
    DeletePrefix + pid + ZoneSeparator + zone
  }

  /** The path of a DELETE, joined to the backend URL. */
  function Path(r: Request): string
    requires r.Delete?
  {
    DeletePath(r.pid, Format(r.zoneId))
  }

  /** The index of the first '/' of `s`, or `|s|` when there is none. */
  function FirstSlash(s: string): (k: nat)
    ensures k <= |s|
    ensures k < |s| ==> s[k] == '/'
    ensures forall j :: 0 <= j < k ==> s[j] != '/'
  {
    if s == [] || s[0] == '/' then 0 else 1 + FirstSlash(s[1..])
  }

  /** How the service reads a delete path back into a pid and a zone. */
  function ParseDeletePath(path: string): Option<(string, string)>
  {
    if |path| < |DeletePrefix| || path[..|DeletePrefix|] != DeletePrefix then None
    else
      var rest := path[|DeletePrefix|..];
      var k := FirstSlash(rest);
      if |rest| - k < |ZoneSeparator| || rest[k..k + |ZoneSeparator|] != ZoneSeparator then None
      else Some((rest[..k], rest[k + |ZoneSeparator|..]))
  }

  /** A delete path names its pid and zone: for a pid without '/', both are
      recovered from it. */
  lemma DeletePathRoundTrip(pid: string, zone: string)
    requires '/' !in pid
    ensures ParseDeletePath(DeletePath(pid, zone)) == Some((pid, zone))
  {
    var path := DeletePath(pid, zone);
    assert path[..|DeletePrefix|] == DeletePrefix;
    var rest := path[|DeletePrefix|..];
    assert rest == pid + ZoneSeparator + zone;
    assert forall j :: 0 <= j < |pid| ==> rest[j] == pid[j] && pid[j] != '/';
    var k := FirstSlash(rest);
    assert rest[|pid|] == '/';
    assert k == |pid|;
    assert rest[k..k + |ZoneSeparator|] == ZoneSeparator;
    assert rest[..k] == pid;
    assert rest[k + |ZoneSeparator|..] == zone;
  }

  class Network {
    var log: seq<Request>

    constructor ()
      ensures log == []
    {
      log := [];
    }

    /** `requests.post(urljoin(backendUrl, endpoint), data=json.dumps(payload), headers=headers)`.
        `response` stands for the pieces iterating over the server's reply
        yields; the contract leaves them open, as the server decides them. */
    method Post(backendUrl: string, endpoint: string, payload: seq<(string, Value)>)
      returns (response: seq<string>)
      modifies this
      ensures log == old(log) + [Request.Post(backendUrl, endpoint, payload)]
    {
      log := log + [Request.Post(backendUrl, endpoint, payload)];
      response := [];
    }

    /** `requests.delete(urljoin(backendUrl, DeletePath(pid, zoneId)), headers=headers)`. */
    method Delete(backendUrl: string, pid: string, zoneId: Value)
      modifies this
      ensures log == old(log) + [Request.Delete(backendUrl, pid, zoneId)]
    {
      log := log + [Request.Delete(backendUrl, pid, zoneId)];
    }
  }
}
