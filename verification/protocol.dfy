/**
  The server's request handlers, reduced to their outcomes: which registry
  transition a request causes and which status and reply the caller gets.
  Request decoding is abstracted to "decoded" or "malformed"; response
  encoding is left out.
 */
module Protocol {
  import opened Registry
  import opened Liveness
  import opened Queries

  const Version: string := "1.0.0"

  const StatusOK: nat := 200
  const StatusBadRequest: nat := 400
  const StatusNotFound: nat := 404
  const StatusMethodNotAllowed: nat := 405
  const StatusServiceUnavailable: nat := 503

  /** No handler distinguishes one non-POST method from another. */
  datatype HttpMethod = Post | NotPost

  /** A JSON body, either decoded into its fields or rejected by the
      decoder. A field absent from the JSON decodes as "". */
  datatype Body<T> = Decoded(value: T) | Malformed

  datatype SetCommandBody = SetCommandBody(id: string, command: string)

  datatype Request =
    | RegisterRequest(httpMethod: HttpMethod, body: Body<string>)
    | PollRequest(query: string)
    | SetCommandRequest(httpMethod: HttpMethod, scBody: Body<SetCommandBody>)
    | ListRequest
    | HealthRequest

  datatype Response =
    | Registered
    | CommandReply(command: string)
    | Queued(id: string, command: string)
    | Listing(entries: seq<Entry>)
    | HealthReply(version: string, total: nat, online: nat)
    | Rejected(status: nat)

  /** The HTTP status of a registry failure. The three failures are told
      apart by their codes. */
  function FailureStatus(f: Failure): (code: nat)
    ensures code in {StatusBadRequest, StatusNotFound, StatusServiceUnavailable}
  {
    match f
    case BadRequest => StatusBadRequest
    case NotFound => StatusNotFound
    case Unavailable => StatusServiceUnavailable
  }

  /** Reading a status back gives the failure, so no two failures share a
      code. */
  function StatusFailure(code: nat): (f: Failure)
    requires code in {StatusBadRequest, StatusNotFound, StatusServiceUnavailable}
    ensures FailureStatus(f) == code
  {
    if code == StatusBadRequest then BadRequest
    else if code == StatusNotFound then NotFound
    else Unavailable
  }

  lemma FailureStatusRoundTrip(f: Failure)
    ensures StatusFailure(FailureStatus(f)) == f
  {
  }

  function Status(r: Response): (code: nat) {
    if r.Rejected? then r.status else StatusOK
  }

  /** One request at time `now`. Register and health reply after releasing
      the registry lock; poll, set-command and list hold it until they
      return. No method check, decoding or reply touches the registry. Every
      rejected request leaves the registry as it was, and the read-only
      requests never change it. */
  method Handle(m: DeviceMap, req: Request, now: int) returns (m': DeviceMap, resp: Response)
    ensures resp.Rejected? ==> m' == m
    ensures resp.Rejected? <==> Status(resp) != StatusOK
    ensures Status(resp) in
              {StatusOK, StatusBadRequest, StatusNotFound, StatusMethodNotAllowed, StatusServiceUnavailable}
    ensures req.RegisterRequest? && req.httpMethod != Post ==> resp == Rejected(StatusMethodNotAllowed)
    ensures req.SetCommandRequest? && req.httpMethod != Post ==> resp == Rejected(StatusMethodNotAllowed)
    ensures req.RegisterRequest? && req.httpMethod == Post && req.body.Malformed? ==>
              resp == Rejected(StatusBadRequest)
    ensures req.SetCommandRequest? && req.httpMethod == Post && req.scBody.Malformed? ==>
              resp == Rejected(StatusBadRequest)
    ensures req.RegisterRequest? && req.httpMethod == Post && req.body.Decoded? ==>
              var s := Register(m, req.body.value, now);
              && m' == s.devices
              && (s.out.Ok? ==> resp == Registered)
              && (s.out.Fail? ==> resp == Rejected(StatusBadRequest))
    ensures req.PollRequest? ==>
              var s := Poll(m, req.query, now);
              && m' == s.devices
              && (s.out.Ok? ==> resp == CommandReply(s.out.value))
              && (s.out.Fail? ==> resp == Rejected(FailureStatus(s.out.failure)))
    ensures req.SetCommandRequest? && req.httpMethod == Post && req.scBody.Decoded? ==>
              var b := req.scBody.value;
              var s := SetCommand(m, b.id, b.command);
              && m' == s.devices
              && (s.out.Ok? ==> resp == Queued(b.id, b.command))
              && (s.out.Fail? ==> resp == Rejected(FailureStatus(s.out.failure)))
    ensures req.ListRequest? || req.HealthRequest? ==> m' == m
    ensures req.ListRequest? ==> resp.Listing? && |resp.entries| == |m|
    ensures req.ListRequest? ==>
              forall i :: 0 <= i < |resp.entries| ==>
                && resp.entries[i].id in m
                && resp.entries[i].online == m[resp.entries[i].id].online
                && resp.entries[i].elapsed == now - m[resp.entries[i].id].lastSeen
    ensures req.ListRequest? ==>
              forall id :: id in m ==> exists i :: 0 <= i < |resp.entries| && resp.entries[i].id == id
    ensures req.ListRequest? ==>
              forall i, j :: 0 <= i < j < |resp.entries| ==> resp.entries[i].id != resp.entries[j].id
    ensures req.HealthRequest? ==>
              resp == HealthReply(Version, |m|, |OnlineIds(m)|)
  {
    m' := m;
    match req
    case RegisterRequest(hm, body) =>
      if hm != Post {
        resp := Rejected(StatusMethodNotAllowed);
      } else if body.Malformed? {
        resp := Rejected(StatusBadRequest);
      } else {
        var s := Register(m, body.value, now);
        m' := s.devices;
        resp := if s.out.Ok? then Registered else Rejected(FailureStatus(s.out.failure));
      }
    case PollRequest(query) =>
      var s := Poll(m, query, now);
      m' := s.devices;
      resp := if s.out.Ok? then CommandReply(s.out.value) else Rejected(FailureStatus(s.out.failure));
    case SetCommandRequest(hm, body) =>
      if hm != Post {
        resp := Rejected(StatusMethodNotAllowed);
      } else if body.Malformed? {
        resp := Rejected(StatusBadRequest);
      } else {
        var s := SetCommand(m, body.value.id, body.value.command);
        m' := s.devices;
        resp := if s.out.Ok? then Queued(body.value.id, body.value.command)
                else Rejected(FailureStatus(s.out.failure));
      }
    case ListRequest =>
      var es := List(m, now);
      resp := Listing(es);
    case HealthRequest =>
      var total, online := Health(m);
      resp := HealthReply(Version, total, online);
  }
}
