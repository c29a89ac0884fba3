/**
  The protocol dispatcher (`handlerFunc` and `isGRPCRequest`): every request
  that reaches the single listener is handed either to the gRPC server or to
  the CORS-wrapped REST gateway, decided per request from the HTTP version and
  the Content-Type header.
 */
module Dispatch {
  import opened GoStrings

  /** The media-type token that marks a gRPC request. */
  const GrpcContentType: string := "application/grpc"

  /**
    What the dispatcher looks at in a request: the HTTP major version and the
    value `Header.Get("Content-Type")` returns (the first value of the header,
    or "" when the request has none).
   */
  datatype Request = Request(protoMajor: int, contentType: string)

  /** The two handlers a request can be forwarded to. */
  datatype Handler = GrpcServer | Gateway

  /** `isGRPCRequest`: HTTP/2 and a content type mentioning the gRPC token. */
  function IsGrpcRequest(r: Request): (b: bool)
    ensures b <==> r.protoMajor == 2 && exists i :: OccursAt(r.contentType, GrpcContentType, i)
    ensures r.protoMajor != 2 ==> !b
  {
    r.protoMajor == 2 && Contains(r.contentType, GrpcContentType)
  }

  /**
    The handler the function built by `handlerFunc` forwards `r` to. The
    choice is total: every request goes to exactly one of the two handlers.
   */
  function Route(r: Request): (h: Handler)
    ensures h == GrpcServer <==> IsGrpcRequest(r)
    ensures h == Gateway <==> !IsGrpcRequest(r)
  {
    if IsGrpcRequest(r) then GrpcServer else Gateway
  }

  /** A request that is not HTTP/2 (HTTP/1.0, HTTP/1.1, ...) goes to the gateway, whatever its content type. */
  lemma NonHttp2GoesToGateway(contentType: string, major: int)
    requires major != 2
    ensures Route(Request(major, contentType)) == Gateway
  {
  }

  /**
    Media-type parameters and subtypes do not move a request off the gRPC
    server: over HTTP/2, any content type that embeds the gRPC token is gRPC.
   */
  lemma {:induction false} GrpcTokenAnywhere(before: string, after: string)
    ensures Route(Request(2, before + GrpcContentType + after)) == GrpcServer
  {
    assert OccursAt(GrpcContentType, GrpcContentType, 0);
    ContainsSurrounded(before, GrpcContentType, after, GrpcContentType);
  }

  /** Content types a gRPC client sends go to the gRPC server over HTTP/2 only. */
  lemma GrpcExamples()
    ensures Route(Request(2, "application/grpc")) == GrpcServer
    ensures Route(Request(2, "application/grpc+proto")) == GrpcServer
    ensures Route(Request(1, "application/grpc")) == Gateway
  {
    var proto := "application/grpc+proto";
    assert OccursAt(GrpcContentType, GrpcContentType, 0);
    assert proto[..16] == GrpcContentType;
    assert OccursAt(proto, GrpcContentType, 0);
  }

  /** JSON requests and requests without a content type go to the gateway. */
  lemma GatewayExamples()
    ensures Route(Request(2, "application/json")) == Gateway
    ensures Route(Request(2, "")) == Gateway
  {
    var json := "application/json";
    assert |json| == |GrpcContentType|;
    assert json[12] != GrpcContentType[12];
    assert !OccursAt(json, GrpcContentType, 0);
  }
}
