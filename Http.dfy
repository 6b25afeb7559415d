/**
 * The HTTP collaborators the lazy kernel depends on, reduced to what it
 * observes of them: requests and responses are plain values, and a kernel
 * is an object that answers a request through a fixed response function
 * and, when it is terminable, records every request/response pair it is
 * asked to terminate.
 */
module Http {
  /** A request, identified by its URI. */
  datatype Request = Request(uri: string)

  /** A response, reduced to its body. */
  datatype Response = Response(content: string)

  /** `HttpKernelInterface::MASTER_REQUEST` and `HttpKernelInterface::SUB_REQUEST`. */
  datatype RequestType = MasterRequest | SubRequest

  /** An `HttpKernelInterface` implementation, terminable when it also implements `TerminableInterface`. */
  class Kernel {
    const respond: (Request, RequestType, bool) -> Response
    const terminable: bool
    /** The request/response pairs this kernel has been terminated with, oldest first. */
    var terminations: seq<(Request, Response)>

    constructor (respond: (Request, RequestType, bool) -> Response, terminable: bool)
      ensures this.respond == respond && this.terminable == terminable
      ensures terminations == []
    {
      this.respond := respond;
      this.terminable := terminable;
      terminations := [];
    }

    /** Handles a request; the answer depends on the three arguments only. */
    method Handle(request: Request, requestType: RequestType, catch: bool) returns (response: Response)
      ensures response == respond(request, requestType, catch)
    {
      response := respond(request, requestType, catch);
    }

    /** Only kernels implementing `TerminableInterface` have a `terminate` method. */
    method Terminate(request: Request, response: Response)
      requires terminable
      modifies this
      ensures terminations == old(terminations) + [(request, response)]
    {
      terminations := terminations + [(request, response)];
    }
  }
}
