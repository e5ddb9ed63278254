/**
 The four endpoint handlers of main.go, each a pure function from a request
 to a response. A failed request answers with a status and a plain-text
 message; a successful one answers 200 with the payload the handler would
 encode as JSON, all of which carry `"success": true`.
 */
module Handlers {
  import opened Http
  import opened Autocomplete

  /** One entry of the software catalog. */
  datatype Software = Software(name: string, description: string, version: string, link: string)

  /** One entry of the ticket list. */
  datatype Ticket = Ticket(ticketId: string, status: string, description: string)

  /** What a successful response carries besides `"success": true`. */
  datatype Payload =
    | SoftwareList(username: string, email: string, software: seq<Software>)
    | Results(results: seq<User>)
    | Received(message: string, details: JsonObject)
    | TicketList(username: string, tickets: seq<Ticket>)

  /** A response: an error written with `http.Error`, or a JSON payload. */
  datatype Response = Error(code: int, message: string) | Ok(payload: Payload)
  {
    function Status(): int
    {
      if Error? then code else StatusOK
    }
  }

  /** The fixed software catalog of the software-details endpoint. */
  const SoftwareCatalog: seq<Software> := [
    Software("GoLang",
             "A statically typed, compiled programming language designed for simplicity and performance.",
             "1.20.3", "https://golang.org"),
    Software("Visual Studio Code",
             "A lightweight code editor with support for various languages.",
             "1.76.2", "https://code.visualstudio.com/")
  ]

  /** The fixed ticket list of the tickets endpoint. */
  const TicketCatalog: seq<Ticket> := [
    Ticket("INC0012345", "Resolved", "System issue resolved."),
    Ticket("INC0012346", "Open", "Pending network configuration.")
  ]

  /** The message of a successful user-details post. */
  const ReceivedMessage: string := "User details received"

  /** GET /software-details: both `username` and `email` are required; on
      success both are echoed with the fixed catalog. The method is not
      checked and the body is not read. */
  function SoftwareDetails(req: Request): (r: Response)
    ensures r.Status() == StatusBadRequest
        <==> QueryGet(req.query, "username") == "" || QueryGet(req.query, "email") == ""
    ensures r.Error? ==> r == Error(StatusBadRequest, "Username and email are required")
    ensures r.Ok? ==> (&& r.payload.SoftwareList?
                       && r.payload.username == req.query["username"][0]
                       && r.payload.email == req.query["email"][0]
                       && r.payload.software == SoftwareCatalog)
  {
    var username := QueryGet(req.query, "username");
    var email := QueryGet(req.query, "email");
    if username == "" || email == "" then
      Error(StatusBadRequest, "Username and email are required")
    else
      Ok(SoftwareList(username, email, SoftwareCatalog))
  }

  /** GET /autocomplete: always succeeds; the results are the directory
      entries the query `q` prefixes, in directory order, none when `q` is
      empty. */
  function AutocompleteHandler(req: Request): (r: Response)
    ensures r.Status() == StatusOK && r.Ok? && r.payload.Results?
    ensures forall u :: u in r.payload.results
              <==> u in Directory && Matches(u, QueryGet(req.query, "q"))
    ensures Subsequence(r.payload.results, Directory)
    ensures Distinct(r.payload.results)
    ensures QueryGet(req.query, "q") == "" ==> r.payload.results == []
  {
    var q := QueryGet(req.query, "q");
    FilterIsSubsequence(Directory, q);
    FilterKeepsDistinct(Directory, q);
    EmptyQueryKeepsNothing(Directory);
    Ok(Results(Filter(Directory, q)))
  }

  /** POST /post-user-details: any method but POST is refused with 405
      before the body is read; a body that does not decode is refused with
      400; otherwise the decoded object is echoed under `details`. */
  function PostUserDetails(req: Request, decode: Decoder): (r: Response)
    ensures req.verb != MethodPost ==> r == Error(StatusMethodNotAllowed, "Invalid request method")
    ensures req.verb == MethodPost && decode(req.body).None?
            ==> r == Error(StatusBadRequest, "Invalid JSON payload")
    ensures r.Ok? <==> req.verb == MethodPost && decode(req.body).Some?
    ensures r.Ok? ==> r.payload == Received(ReceivedMessage, decode(req.body).value)
  {
    if req.verb != MethodPost then
      Error(StatusMethodNotAllowed, "Invalid request method")
    else
      match decode(req.body)
      case None => Error(StatusBadRequest, "Invalid JSON payload")
      case Some(obj) => Ok(Received(ReceivedMessage, obj))
  }

  /** GET /servicenow-tickets: `username` is required; on success it is
      echoed with the fixed ticket list. */
  function ServiceNowTickets(req: Request): (r: Response)
    ensures r.Status() == StatusBadRequest <==> QueryGet(req.query, "username") == ""
    ensures r.Error? ==> r == Error(StatusBadRequest, "Username is required")
    ensures r.Ok? ==> r.payload == TicketList(req.query["username"][0], TicketCatalog)
  {
    var username := QueryGet(req.query, "username");
    if username == "" then
      Error(StatusBadRequest, "Username is required")
    else
      Ok(TicketList(username, TicketCatalog))
  }

  /** The software catalog: two entries, GoLang 1.20.3 then Visual Studio
      Code 1.76.2, each with its link. */
  lemma SoftwareCatalogEntries()
    ensures |SoftwareCatalog| == 2
    ensures SoftwareCatalog[0].name == "GoLang" && SoftwareCatalog[0].version == "1.20.3"
    ensures SoftwareCatalog[0].link == "https://golang.org"
    ensures SoftwareCatalog[1].name == "Visual Studio Code" && SoftwareCatalog[1].version == "1.76.2"
    ensures SoftwareCatalog[1].link == "https://code.visualstudio.com/"
    ensures SoftwareCatalog[0] != SoftwareCatalog[1]
  {
  }

  /** The ticket list: INC0012345 (resolved) then INC0012346 (open). */
  lemma TicketCatalogEntries()
    ensures |TicketCatalog| == 2
    ensures TicketCatalog[0].ticketId == "INC0012345" && TicketCatalog[0].status == "Resolved"
    ensures TicketCatalog[0].description == "System issue resolved."
    ensures TicketCatalog[1].ticketId == "INC0012346" && TicketCatalog[1].status == "Open"
    ensures TicketCatalog[1].description == "Pending network configuration."
    ensures TicketCatalog[0].ticketId != TicketCatalog[1].ticketId
  {
  }

  /** The software-details handler looks at the query alone: the method and
      the body never change its answer. */
  lemma SoftwareDetailsReadsQueryOnly(a: Request, b: Request)
    requires a.query == b.query
    ensures SoftwareDetails(a) == SoftwareDetails(b)
  {
  }

  /** A missing `username` or `email` parameter is a 400. */
  lemma SoftwareDetailsMissingParameter(req: Request)
    requires "username" !in req.query || "email" !in req.query
    ensures SoftwareDetails(req).Status() == StatusBadRequest
  {
  }

  /** Any non-empty pair of values is accepted and echoed unchanged, with
      exactly the two catalog entries. */
  lemma SoftwareDetailsEcho(verb: string, body: string, username: string, email: string)
    requires username != "" && email != ""
    ensures SoftwareDetails(Request(verb, map["username" := [username], "email" := [email]], body))
         == Ok(SoftwareList(username, email, SoftwareCatalog))
    ensures |SoftwareCatalog| == 2
  {
  }

  /** For a non-POST method the answer does not depend on the body, the
      query or the decoder: the method is checked before anything is read. */
  lemma MethodCheckedFirst(a: Request, b: Request, decodeA: Decoder, decodeB: Decoder)
    requires a.verb == b.verb && a.verb != MethodPost
    ensures PostUserDetails(a, decodeA) == PostUserDetails(b, decodeB)
    ensures PostUserDetails(a, decodeA).Status() == StatusMethodNotAllowed
  {
  }

  /** The user-details handler's status is 405, 400 or 200, and 405 is
      reserved for a wrong method. */
  lemma PostUserDetailsStatuses(req: Request, decode: Decoder)
    ensures PostUserDetails(req, decode).Status() in {StatusOK, StatusBadRequest, StatusMethodNotAllowed}
    ensures PostUserDetails(req, decode).Status() == StatusMethodNotAllowed <==> req.verb != MethodPost
  {
  }

  /** The tickets handler answers `username=alice` with both tickets. */
  lemma TicketsForAlice(verb: string, body: string)
    ensures ServiceNowTickets(Request(verb, map["username" := ["alice"]], body))
         == Ok(TicketList("alice", TicketCatalog))
    ensures ServiceNowTickets(Request(verb, map[], body)).Status() == StatusBadRequest
  {
  }

  /** The autocomplete handler answers "john" with johndoe then johnsmith. */
  lemma AutocompleteJohn(verb: string, body: string)
    ensures AutocompleteHandler(Request(verb, map["q" := ["john"]], body))
         == Ok(Results([User("johndoe", "johndoe@example.com"), User("johnsmith", "johnsmith@example.com")]))
  {
    JohnQuery();
  }
}
