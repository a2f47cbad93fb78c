/**
 * The response envelope of the Alpaca device API and the application's
 * exception handlers: every domain error becomes an HTTP 200 envelope that
 * carries its error number, every unexpected exception an HTTP 500 envelope
 * with error number 0x500, and an explicitly raised FastAPI
 * `HTTPException` with status 404 or 422 a plain HTTP 400. Also the two
 * management endpoints that list the API versions and the configured
 * devices.
 */
module Envelope {
  import opened Wrappers
  import opened Values
  import opened Text
  import opened State
  import opened Collections
  import ImageBytes

  /**
   * An exception a handler raises: `AlpacaError(code, message)`, or any
   * other exception, by a placeholder for its text (the name of its class,
   * such as "TypeError").
   */
  datatype Failure =
    | AlpacaError(code: int, message: string)
    | Internal(detail: string)

  /**
   * What a request carries that a reply depends on: the endpoint's own
   * `ClientTransactionID` argument (from the query of a GET, the form of a
   * PUT, 0 when absent) and the raw query string parameters.
   */
  datatype Request = Request(clientTransactionId: int, query: map<string, string>)

  /**
   * An HTTP response: a JSON envelope, a bare JSON string, or a streamed
   * `application/imagebytes` body (`None` when the stream breaks off while
   * it is produced).
   */
  datatype Reply =
    | Envelope(status: int, value: Option<Value>, errorNumber: int, errorMessage: string,
               clientTransactionId: int, serverTransactionId: int)
    | Plain(status: int, content: string)
    | ImageStream(frame: Option<ImageBytes.ImageFrame>)

  /**
   * The ClientTransactionID an exception handler echoes: `int()` of the query
   * parameter when there is one and it parses, otherwise 0. The form body is
   * never consulted.
   */
  function QueryClientTransactionId(query: map<string, string>): (r: int)
    ensures "ClientTransactionID" !in query ==> r == 0
    ensures "ClientTransactionID" in query && ParseInt(query["ClientTransactionID"]).None? ==> r == 0
    ensures "ClientTransactionID" in query && ParseInt(query["ClientTransactionID"]).Some? ==>
      r == ParseInt(query["ClientTransactionID"]).value
  {
    if "ClientTransactionID" in query then ParseInt(query["ClientTransactionID"]).GetOr(0) else 0
  }

  /** A query parameter holding the decimal text of an integer is echoed as that integer. */
  lemma QueryEchoesClientTransactionId(query: map<string, string>, n: int)
    requires "ClientTransactionID" in query && query["ClientTransactionID"] == IntToString(n)
    ensures QueryClientTransactionId(query) == n
  {
    IntToStringRoundTrip(n);
  }

  /** The envelope of a handler that returned normally: HTTP 200, error number 0, an empty message. */
  function SuccessReply(value: Option<Value>, rq: Request, tx: int): (r: Reply)
    ensures r.Envelope? && r.status == 200 && r.errorNumber == 0 && r.errorMessage == ""
    ensures r.value == value && r.clientTransactionId == rq.clientTransactionId && r.serverTransactionId == tx
  {
    Envelope(200, value, 0, "", rq.clientTransactionId, tx)
  }

  /**
   * `alpaca_exception_handler` and `general_exception_handler`: an
   * `AlpacaError` becomes HTTP 200 with its code and message, any other
   * exception HTTP 500 with error number 0x500; both carry no value and
   * echo the query's ClientTransactionID.
   */
  function FailureReply(f: Failure, query: map<string, string>, tx: int): (r: Reply)
    ensures r.Envelope? && r.value == None
    ensures r.clientTransactionId == QueryClientTransactionId(query) && r.serverTransactionId == tx
    ensures f.AlpacaError? ==> r.status == 200 && r.errorNumber == f.code && r.errorMessage == f.message
    ensures f.Internal? ==> r.status == 500 && r.errorNumber == 0x500
    ensures f.Internal? ==> r.errorMessage == "Internal server error: " + f.detail
  {
    match f
    case AlpacaError(code, message) =>
      Envelope(200, None, code, message, QueryClientTransactionId(query), tx)
    case Internal(detail) =>
      Envelope(500, None, 0x500, "Internal server error: " + detail, QueryClientTransactionId(query), tx)
  }

  /**
   * A domain error is told apart from a success only by its error number:
   * both travel as HTTP 200, and a reply with a nonzero error number is never
   * a success reply.
   */
  lemma DomainErrorsTravelAsSuccessfulHttp(f: Failure, query: map<string, string>, v: Option<Value>,
                                           rq: Request, tx: int)
    requires f.AlpacaError? && f.code != 0
    ensures FailureReply(f, query, tx).status == SuccessReply(v, rq, tx).status == 200
    ensures FailureReply(f, query, tx) != SuccessReply(v, rq, tx)
  {
  }

  /**
   * `http_exception_handler`, for an explicitly raised FastAPI
   * `HTTPException` of status `status`: 404 and 422 become HTTP 400 with a
   * prefixed text; every other status passes through with the exception's
   * detail. `rendered` is the text each copy appends after the prefix (the
   * error dictionary, the path or the detail). The router's own 404 for an
   * unknown route and the 422 of argument validation are other exception
   * classes that this handler is not registered for; they are not modelled.
   */
  function HttpExceptionReply(status: int, detail: string, rendered: string): (r: Reply)
    ensures r.Plain?
    ensures r.status == 400 <==> status in {400, 404, 422}
    ensures r.status != 404 && r.status != 422
    ensures status == 404 ==> r.content == "Device or method not found: " + rendered
    ensures status == 422 ==> r.content == "Invalid parameters: " + rendered
    ensures status !in {404, 422} ==> r == Plain(status, detail)
  {
    if status == 404 then Plain(400, "Device or method not found: " + rendered)
    else if status == 422 then Plain(400, "Invalid parameters: " + rendered)
    else Plain(status, detail)
  }

  /**
   * An exception handler that answers with an envelope draws the next
   * server transaction id for it.
   */
  method HandleException(s: Store, f: Failure, query: map<string, string>) returns (r: Reply)
    modifies s`txid
    ensures s.txid == old(s.txid) + 1
    ensures r == FailureReply(f, query, s.txid)
  {
    var tx := s.NextTransactionId();
    r := FailureReply(f, query, tx);
  }

  /** A management endpoint's body: a value, error number 0 and an empty message, with no transaction ids. */
  datatype ManagementReply = ManagementReply(value: Value, errorNumber: int, errorMessage: string)

  /** `get_api_versions`: version 1 is the only one served. */
  function ApiVersions(): (r: ManagementReply)
    ensures r.value.VList? && |r.value.items| == 1 && r.value.items[0] == VInt(1)
    ensures r.errorNumber == 0 && r.errorMessage == ""
  {
    ManagementReply(VList([VInt(1)]), 0, "")
  }

  /** One entry of `configureddevices`. */
  function DeviceEntry(cfg: DeviceConfig, id: DeviceId): Props
  {
    map[
      "DeviceName" := Get(DeviceConfigOf(cfg, id), "name", VStr("Simulator " + Title(id.kind))),
      "DeviceType" := VStr(Title(id.kind)),
      "DeviceNumber" := VInt(id.number),
      "UniqueID" := VStr(id.kind + "-" + IntToString(id.number))
    ]
  }

  /**
   * The entry's DeviceType is already title-cased, and two devices of one
   * type have different UniqueIDs.
   */
  lemma DeviceEntryFacts(cfg: DeviceConfig, a: DeviceId, b: DeviceId)
    ensures DeviceEntry(cfg, a)["DeviceType"].VStr?
    ensures Title(DeviceEntry(cfg, a)["DeviceType"].s) == DeviceEntry(cfg, a)["DeviceType"].s
    ensures a.kind == b.kind && a.number != b.number ==>
      DeviceEntry(cfg, a)["UniqueID"] != DeviceEntry(cfg, b)["UniqueID"]
  {
    TitleIdempotent(a.kind);
    if a.kind == b.kind && a.number != b.number {
      var p := a.kind + "-";
      var sa := IntToString(a.number);
      var sb := IntToString(b.number);
      if p + sa == p + sb {
        assert sa == (p + sa)[|p|..];
        assert sb == (p + sb)[|p|..];
        IntToStringInjective(a.number, b.number);
      }
    }
  }

  /**
   * `get_configured_devices`: one entry per configured (type, number), and
   * nothing else.
   */
  method ConfiguredDevices(cfg: DeviceConfig) returns (r: ManagementReply)
    ensures r.errorNumber == 0 && r.errorMessage == "" && r.value.VList?
    ensures |r.value.items| == |ConfiguredIds(cfg)|
    ensures forall id :: Configured(cfg, id) ==> VMap(DeviceEntry(cfg, id)) in r.value.items
    ensures forall v :: v in r.value.items ==> exists id :: Configured(cfg, id) && v == VMap(DeviceEntry(cfg, id))
  {
    var devices: seq<Value> := [];
    var ids: seq<DeviceId> := [];
    var kinds := cfg.Keys;
    while kinds != {}
      invariant kinds <= cfg.Keys
      invariant Distinct(ids) && |devices| == |ids|
      invariant forall i :: 0 <= i < |ids| ==> devices[i] == VMap(DeviceEntry(cfg, ids[i]))
      invariant forall id :: id in ids <==> Configured(cfg, id) && id.kind !in kinds
      decreases |kinds|
    {
      ghost var w := Pick(kinds);
      var kind :| kind in kinds;
      var numbers := cfg[kind].Keys;
      while numbers != {}
        invariant numbers <= cfg[kind].Keys
        invariant Distinct(ids) && |devices| == |ids|
        invariant forall i :: 0 <= i < |ids| ==> devices[i] == VMap(DeviceEntry(cfg, ids[i]))
        invariant forall id :: id in ids <==>
          Configured(cfg, id) && (id.kind !in kinds || (id.kind == kind && id.number !in numbers))
        decreases |numbers|
      {
        ghost var wn := Pick(numbers);
        var n :| n in numbers;
        var id := DeviceId(kind, n);
        assert id !in ids;
        ids := ids + [id];
        devices := devices + [VMap(DeviceEntry(cfg, id))];
        numbers := numbers - {n};
      }
      kinds := kinds - {kind};
    }
    Listed(cfg, ids, devices);
    r := ManagementReply(VList(devices), 0, "");
  }

  /** A duplicate-free list of every configured identity gives the listing its contract promises. */
  lemma Listed(cfg: DeviceConfig, ids: seq<DeviceId>, devices: seq<Value>)
    requires Distinct(ids) && |devices| == |ids|
    requires forall i :: 0 <= i < |ids| ==> devices[i] == VMap(DeviceEntry(cfg, ids[i]))
    requires forall id :: id in ids <==> Configured(cfg, id)
    ensures |devices| == |ConfiguredIds(cfg)|
    ensures forall id :: Configured(cfg, id) ==> VMap(DeviceEntry(cfg, id)) in devices
    ensures forall v :: v in devices ==> exists id :: Configured(cfg, id) && v == VMap(DeviceEntry(cfg, id))
  {
    assert (set x | x in ids) == ConfiguredIds(cfg);
    DistinctCardinality(ids);
    forall v | v in devices
      ensures exists id :: Configured(cfg, id) && v == VMap(DeviceEntry(cfg, id))
    {
      var i :| 0 <= i < |devices| && devices[i] == v;
      assert Configured(cfg, ids[i]);
    }
    forall id | Configured(cfg, id)
      ensures VMap(DeviceEntry(cfg, id)) in devices
    {
      var i :| 0 <= i < |ids| && ids[i] == id;
      assert devices[i] == VMap(DeviceEntry(cfg, id));
    }
  }
}
