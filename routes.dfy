/** The HTTP layer: which handler a request reaches, and what each of the
    ten handlers answers and does to the store. Express itself (request and
    response objects, JSON body parsing, the server) is not modelled; a
    request is its verb, its path split at '/', its `q` query parameter and
    its JSON body, and a response is a status with a payload. */
module Routes {
  import opened Wrappers
  import opened Schema
  import opened Storage
  import Listing

  datatype Verb = Get | Post | Put | Delete

  /** The `q` query parameter as the query-string parser delivers it: absent,
      a single string, or (for `?q=a&q=b` and the like) a list. */
  datatype QueryParam = Absent | One(s: string) | Many(items: seq<string>)

  datatype Request = Request(verb: Verb, path: seq<string>, q: QueryParam, body: Body)

  datatype Endpoint =
    | ListContacts | SearchContacts | GetContact(id: string) | CreateContact
    | UpdateContact(id: string) | DeleteContact(id: string)
    | ListCallLogs | CreateCallLog | DeleteCallLog(id: string) | ClearCallLogs

  datatype Payload =
    | NoBody
    | OneContact(contact: Contact)
    | Contacts(contacts: seq<Contact>)
    | OneCallLog(callLog: CallLog)
    | CallLogs(callLogs: seq<CallLog>)
    | Message(text: string)
    | InvalidData(text: string, issues: seq<Issue>)

  datatype Response = Response(status: nat, payload: Payload)

  // ---------------------------------------------------------------------
  // Matching a request to a handler
  // ---------------------------------------------------------------------

  /** `/api/<collection>/:id`: the parameter is one non-empty segment. */
  predicate IsItem(path: seq<string>, collection: string) {
    |path| == 3 && path[0] == "api" && path[1] == collection && path[2] != ""
  }

  /** The first registered route that matches, in registration order. */
  function Route(verb: Verb, path: seq<string>): (r: Option<Endpoint>)
    ensures r == Some(SearchContacts) <==> verb == Get && path == ["api", "contacts", "search"]
    ensures r.Some? && r.value.GetContact? ==> r.value.id != "search" && path == ["api", "contacts", r.value.id]
    ensures r.Some? && (r.value.UpdateContact? || r.value.DeleteContact?) ==> verb != Get && path == ["api", "contacts", r.value.id]
    ensures r.Some? && r.value.DeleteCallLog? ==> verb == Delete && path == ["api", "call-logs", r.value.id]
    ensures r.None? <==>
      && (path == ["api", "contacts"] ==> verb == Put || verb == Delete)
      && (IsItem(path, "contacts") ==> verb == Post)
      && (path == ["api", "call-logs"] ==> verb == Put)
      && (IsItem(path, "call-logs") ==> verb != Delete)
  {
    if verb == Get && path == ["api", "contacts"] then Some(ListContacts)
    else if verb == Get && path == ["api", "contacts", "search"] then Some(SearchContacts)
    else if verb == Get && IsItem(path, "contacts") then Some(GetContact(path[2]))
    else if verb == Post && path == ["api", "contacts"] then Some(CreateContact)
    else if verb == Put && IsItem(path, "contacts") then Some(UpdateContact(path[2]))
    else if verb == Delete && IsItem(path, "contacts") then Some(DeleteContact(path[2]))
    else if verb == Get && path == ["api", "call-logs"] then Some(ListCallLogs)
    else if verb == Post && path == ["api", "call-logs"] then Some(CreateCallLog)
    else if verb == Delete && IsItem(path, "call-logs") then Some(DeleteCallLog(path[2]))
    else if verb == Delete && path == ["api", "call-logs"] then Some(ClearCallLogs)
    else
      assert path == ["api", "contacts"] ==> verb == Put || verb == Delete;
      assert IsItem(path, "contacts") ==> verb == Post;
      assert path == ["api", "call-logs"] ==> verb == Put;
      assert IsItem(path, "call-logs") ==> verb != Delete;
      None
  }

  /** Only GET has a search route, so a PUT or DELETE of
      `/api/contacts/search` reaches the item handler with the id "search". */
  lemma SearchIsAnIdForOtherVerbs()
    ensures Route(Put, ["api", "contacts", "search"]) == Some(UpdateContact("search"))
    ensures Route(Delete, ["api", "contacts", "search"]) == Some(DeleteContact("search"))
  {
  }

  // ---------------------------------------------------------------------
  // Fixed messages. No response ever carries the text of an error.
  // ---------------------------------------------------------------------

  const SearchQueryRequired := "Search query is required"
  const SearchFailed := "Failed to search contacts"
  const ContactNotFound := "Contact not found"
  const CallLogNotFound := "Call log not found"
  const InvalidContactData := "Invalid contact data"
  const InvalidCallLogData := "Invalid call log data"

  // ---------------------------------------------------------------------
  // The handlers
  // ---------------------------------------------------------------------

  /** GET /api/contacts */
  method HandleListContacts(st: MemStorage) returns (res: Response)
    requires st.Valid()
    ensures res.status == 200 && res.payload.Contacts?
    ensures Listing.SortedByName(res.payload.contacts)
    ensures multiset(res.payload.contacts) == multiset(st.contacts.Values)
  {
    var cs := st.GetContacts();
    res := Response(200, Contacts(cs));
  }

  /** GET /api/contacts/search?q=... An absent or empty query is refused
      before the store is asked; a list-valued query makes `toLowerCase`
      throw inside the store, which the handler turns into a 500. */
  method HandleSearch(st: MemStorage, q: QueryParam) returns (res: Response)
    requires st.Valid()
    ensures q == Absent || q == One("") ==> res == Response(400, Message(SearchQueryRequired))
    ensures q.Many? ==> res == Response(500, Message(SearchFailed))
    ensures q.One? && q.s != "" ==>
      && res.status == 200 && res.payload.Contacts?
      && Listing.SortedByName(res.payload.contacts)
      && multiset(res.payload.contacts) == multiset(set c | c in st.contacts.Values && Matches(c, q.s))
  {
    match q
    case Absent =>
      return Response(400, Message(SearchQueryRequired));
    case Many(_) =>
      return Response(500, Message(SearchFailed));
    case One(s) =>
      if s == "" {
        return Response(400, Message(SearchQueryRequired));
      }
      var cs := st.SearchContacts(s);
      res := Response(200, Contacts(cs));
  }

  /** GET /api/contacts/:id */
  method HandleGetContact(st: MemStorage, id: string) returns (res: Response)
    requires st.Valid()
    ensures id !in st.contacts ==> res == Response(404, Message(ContactNotFound))
    ensures id in st.contacts ==> res == Response(200, OneContact(st.contacts[id]))
  {
    var found := st.GetContact(id);
    if found.None? {
      return Response(404, Message(ContactNotFound));
    }
    res := Response(200, OneContact(found.value));
  }

  /** POST /api/contacts */
  method HandleCreateContact(st: MemStorage, body: Body, now: nat) returns (res: Response)
    requires st.Valid()
    modifies st
    ensures st.Valid()
    ensures ParseInsertContact(body).Err? ==>
      && res == Response(400, InvalidData(InvalidContactData, ParseInsertContact(body).error))
      && unchanged(st)
    ensures ParseInsertContact(body).Ok? ==>
      && res.status == 201 && res.payload.OneContact?
      && var c := res.payload.contact;
      && c.id !in old(st.issued) && c.id != "" && c.id != "search"
      && c == NewContact(ParseInsertContact(body).value, c.id, now)
      && st.contacts == old(st.contacts)[c.id := c]
      && st.callLogs == old(st.callLogs)
      && st.issued == old(st.issued) + {c.id}
  {
    var parsed := ParseInsertContact(body);
    if parsed.Err? {
      return Response(400, InvalidData(InvalidContactData, parsed.error));
    }
    var c := st.CreateContact(parsed.value, now);
    res := Response(201, OneContact(c));
  }

  /** PUT /api/contacts/:id. The body must pass the partial schema before
      the store is touched. */
  method HandleUpdateContact(st: MemStorage, id: string, body: Body) returns (res: Response)
    requires st.Valid()
    modifies st
    ensures st.Valid()
    ensures ParseContactPatch(body).Err? ==>
      && res == Response(400, InvalidData(InvalidContactData, ParseContactPatch(body).error))
      && unchanged(st)
    ensures ParseContactPatch(body).Ok? && id !in old(st.contacts) ==>
      && res == Response(404, Message(ContactNotFound))
      && unchanged(st)
    ensures ParseContactPatch(body).Ok? && id in old(st.contacts) ==>
      && var c := Merge(old(st.contacts)[id], ParseContactPatch(body).value);
      && res == Response(200, OneContact(c))
      && st.contacts == old(st.contacts)[id := c]
      && st.callLogs == old(st.callLogs)
      && st.issued == old(st.issued)
  {
    var parsed := ParseContactPatch(body);
    if parsed.Err? {
      return Response(400, InvalidData(InvalidContactData, parsed.error));
    }
    var updated := st.UpdateContact(id, parsed.value);
    if updated.None? {
      return Response(404, Message(ContactNotFound));
    }
    res := Response(200, OneContact(updated.value));
  }

  /** DELETE /api/contacts/:id */
  method HandleDeleteContact(st: MemStorage, id: string) returns (res: Response)
    requires st.Valid()
    modifies st
    ensures st.Valid()
    ensures id !in old(st.contacts) ==> res == Response(404, Message(ContactNotFound)) && unchanged(st)
    ensures id in old(st.contacts) ==>
      && res == Response(204, NoBody)
      && st.contacts == old(st.contacts) - {id}
      && st.callLogs == old(st.callLogs)
      && st.issued == old(st.issued)
  {
    var deleted := st.DeleteContact(id);
    if !deleted {
      assert st.contacts == old(st.contacts);
      return Response(404, Message(ContactNotFound));
    }
    res := Response(204, NoBody);
  }

  /** GET /api/call-logs */
  method HandleListCallLogs(st: MemStorage) returns (res: Response)
    requires st.Valid()
    ensures res.status == 200 && res.payload.CallLogs?
    ensures Listing.NewestFirst(res.payload.callLogs)
    ensures multiset(res.payload.callLogs) == multiset(st.callLogs.Values)
  {
    var ls := st.GetCallLogs();
    res := Response(200, CallLogs(ls));
  }

  /** POST /api/call-logs */
  method HandleCreateCallLog(st: MemStorage, body: Body, now: nat) returns (res: Response)
    requires st.Valid()
    modifies st
    ensures st.Valid()
    ensures ParseInsertCallLog(body).Err? ==>
      && res == Response(400, InvalidData(InvalidCallLogData, ParseInsertCallLog(body).error))
      && unchanged(st)
    ensures ParseInsertCallLog(body).Ok? ==>
      && res.status == 201 && res.payload.OneCallLog?
      && var l := res.payload.callLog;
      && l.id !in old(st.issued) && l.id != "" && l.id != "search"
      && l == NewCallLog(ParseInsertCallLog(body).value, l.id, now)
      && st.callLogs == old(st.callLogs)[l.id := l]
      && st.contacts == old(st.contacts)
      && st.issued == old(st.issued) + {l.id}
  {
    var parsed := ParseInsertCallLog(body);
    if parsed.Err? {
      return Response(400, InvalidData(InvalidCallLogData, parsed.error));
    }
    var l := st.CreateCallLog(parsed.value, now);
    res := Response(201, OneCallLog(l));
  }

  /** DELETE /api/call-logs/:id */
  method HandleDeleteCallLog(st: MemStorage, id: string) returns (res: Response)
    requires st.Valid()
    modifies st
    ensures st.Valid()
    ensures id !in old(st.callLogs) ==> res == Response(404, Message(CallLogNotFound)) && unchanged(st)
    ensures id in old(st.callLogs) ==>
      && res == Response(204, NoBody)
      && st.callLogs == old(st.callLogs) - {id}
      && st.contacts == old(st.contacts)
      && st.issued == old(st.issued)
  {
    var deleted := st.DeleteCallLog(id);
    if !deleted {
      assert st.callLogs == old(st.callLogs);
      return Response(404, Message(CallLogNotFound));
    }
    res := Response(204, NoBody);
  }

  /** DELETE /api/call-logs */
  method HandleClearCallLogs(st: MemStorage) returns (res: Response)
    requires st.Valid()
    modifies st
    ensures st.Valid()
    ensures res == Response(204, NoBody)
    ensures st.callLogs == map[] && st.contacts == old(st.contacts) && st.issued == old(st.issued)
  {
    var _ := st.ClearCallLogs();
    res := Response(204, NoBody);
  }

  // ---------------------------------------------------------------------
  // The whole API
  // ---------------------------------------------------------------------

  /** One request, handled to completion. `None` means no API route matches
      (the request falls through to whatever serves the client). */
  method Handle(st: MemStorage, req: Request, now: nat) returns (res: Option<Response>)
    requires st.Valid()
    modifies st
    ensures st.Valid()
    ensures res.Some? <==> Route(req.verb, req.path).Some?
    ensures res.Some? ==> res.value.status in {200, 201, 204, 400, 404, 500}
    ensures res.Some? && res.value.status in {400, 404, 500} ==> unchanged(st)
    ensures res.Some? && res.value.status == 500 ==>
      && Route(req.verb, req.path) == Some(SearchContacts) && req.q.Many?
      && res.value.payload == Message(SearchFailed)
    ensures res.Some? && res.value.status == 201 ==>
      Route(req.verb, req.path) == Some(CreateContact) || Route(req.verb, req.path) == Some(CreateCallLog)
    ensures res.Some? && res.value.status == 204 ==> res.value.payload == NoBody
    ensures req.verb == Get ==> unchanged(st)
    // What each endpoint answers and leaves behind, as its handler promises.
    ensures Route(req.verb, req.path) == Some(ListContacts) ==>
      && res.value.status == 200 && res.value.payload.Contacts?
      && Listing.SortedByName(res.value.payload.contacts)
      && multiset(res.value.payload.contacts) == multiset(st.contacts.Values)
    ensures Route(req.verb, req.path) == Some(SearchContacts) ==>
      && (req.q == Absent || req.q == One("") ==> res.value == Response(400, Message(SearchQueryRequired)))
      && (req.q.Many? ==> res.value == Response(500, Message(SearchFailed)))
      && (req.q.One? && req.q.s != "" ==>
        && res.value.status == 200 && res.value.payload.Contacts?
        && Listing.SortedByName(res.value.payload.contacts)
        && multiset(res.value.payload.contacts) == multiset(set c | c in st.contacts.Values && Matches(c, req.q.s)))
    ensures var e := Route(req.verb, req.path); e.Some? && e.value.GetContact? ==>
      res.value == if e.value.id in st.contacts then Response(200, OneContact(st.contacts[e.value.id]))
                   else Response(404, Message(ContactNotFound))
    ensures Route(req.verb, req.path) == Some(CreateContact) ==>
      (match ParseInsertContact(req.body)
       case Err(issues) =>
         res.value == Response(400, InvalidData(InvalidContactData, issues)) && unchanged(st)
       case Ok(ins) =>
         && res.value.status == 201 && res.value.payload.OneContact?
         && var c := res.value.payload.contact;
         && c.id !in old(st.issued) && c.id != "" && c.id != "search" && c == NewContact(ins, c.id, now)
         && st.contacts == old(st.contacts)[c.id := c] && st.callLogs == old(st.callLogs)
         && st.issued == old(st.issued) + {c.id})
    ensures var e := Route(req.verb, req.path); e.Some? && e.value.UpdateContact? ==>
      (match ParseContactPatch(req.body)
       case Err(issues) =>
         res.value == Response(400, InvalidData(InvalidContactData, issues)) && unchanged(st)
       case Ok(patch) =>
         if e.value.id !in old(st.contacts) then
           res.value == Response(404, Message(ContactNotFound)) && unchanged(st)
         else
           && var c := Merge(old(st.contacts)[e.value.id], patch);
           && res.value == Response(200, OneContact(c))
           && st.contacts == old(st.contacts)[e.value.id := c]
           && st.callLogs == old(st.callLogs) && st.issued == old(st.issued))
    ensures var e := Route(req.verb, req.path); e.Some? && e.value.DeleteContact? ==>
      if e.value.id !in old(st.contacts) then
        res.value == Response(404, Message(ContactNotFound)) && unchanged(st)
      else
        && res.value == Response(204, NoBody)
        && st.contacts == old(st.contacts) - {e.value.id}
        && st.callLogs == old(st.callLogs) && st.issued == old(st.issued)
    ensures Route(req.verb, req.path) == Some(ListCallLogs) ==>
      && res.value.status == 200 && res.value.payload.CallLogs?
      && Listing.NewestFirst(res.value.payload.callLogs)
      && multiset(res.value.payload.callLogs) == multiset(st.callLogs.Values)
    ensures Route(req.verb, req.path) == Some(CreateCallLog) ==>
      (match ParseInsertCallLog(req.body)
       case Err(issues) =>
         res.value == Response(400, InvalidData(InvalidCallLogData, issues)) && unchanged(st)
       case Ok(ins) =>
         && res.value.status == 201 && res.value.payload.OneCallLog?
         && var l := res.value.payload.callLog;
         && l.id !in old(st.issued) && l.id != "" && l.id != "search" && l == NewCallLog(ins, l.id, now)
         && st.callLogs == old(st.callLogs)[l.id := l] && st.contacts == old(st.contacts)
         && st.issued == old(st.issued) + {l.id})
    ensures var e := Route(req.verb, req.path); e.Some? && e.value.DeleteCallLog? ==>
      if e.value.id !in old(st.callLogs) then
        res.value == Response(404, Message(CallLogNotFound)) && unchanged(st)
      else
        && res.value == Response(204, NoBody)
        && st.callLogs == old(st.callLogs) - {e.value.id}
        && st.contacts == old(st.contacts) && st.issued == old(st.issued)
    ensures Route(req.verb, req.path) == Some(ClearCallLogs) ==>
      && res.value == Response(204, NoBody)
      && st.callLogs == map[] && st.contacts == old(st.contacts) && st.issued == old(st.issued)
  {
    var endpoint := Route(req.verb, req.path);
    if endpoint.None? {
      return None;
    }
    var r: Response;
    match endpoint.value {
      case ListContacts => r := HandleListContacts(st);
      case SearchContacts => r := HandleSearch(st, req.q);
      case GetContact(id) => r := HandleGetContact(st, id);
      case CreateContact => r := HandleCreateContact(st, req.body, now);
      case UpdateContact(id) => r := HandleUpdateContact(st, id, req.body);
      case DeleteContact(id) => r := HandleDeleteContact(st, id);
      case ListCallLogs => r := HandleListCallLogs(st);
      case CreateCallLog => r := HandleCreateCallLog(st, req.body, now);
      case DeleteCallLog(id) => r := HandleDeleteCallLog(st, id);
      case ClearCallLogs => r := HandleClearCallLogs(st);
    }
    res := Some(r);
  }

  /** A contact created through the API can be fetched by the id it was
      given: POST /api/contacts, then GET /api/contacts/<that id>, which the
      router sends to the item handler because the id is never "search". */
  method CreateThenGet(st: MemStorage, body: Body, now: nat) returns (created: Response, fetched: Response)
    requires st.Valid()
    modifies st
    ensures Route(Post, ["api", "contacts"]) == Some(CreateContact)
    ensures ParseInsertContact(body).Ok? ==>
      && created.status == 201 && created.payload.OneContact?
      && Route(Get, ["api", "contacts", created.payload.contact.id]) == Some(GetContact(created.payload.contact.id))
      && fetched == Response(200, created.payload)
    ensures ParseInsertContact(body).Err? ==> created.status == 400 && unchanged(st)
  {
    created := HandleCreateContact(st, body, now);
    var id := if created.payload.OneContact? then created.payload.contact.id else "unknown";
    assert Route(Get, ["api", "contacts", id]).Some?;
    fetched := HandleGetContact(st, id);
  }
}
