/**
 * The ticket service of one project: ticket numbers, the alphabetical-tag
 * codec, listing with its query and pagination, creation through the narrow
 * `TicketCreate` view, and bulk edits.
 */
module Tickets {
  import opened Wrappers
  import opened Strings
  import opened Decimal
  import Json
  import opened Service

  /** The fields of a ticket the model keeps; `Create` reads six of them. */
  datatype Ticket = Ticket(
    number: int,
    title: string,
    body: string,
    state: string,
    assignedUserID: int,
    milestoneID: int,
    tag: string,
    userID: int,
    priority: int,
    url: string)

  /** `TicketCreate`: `state`, `assigned_user_id` and `milestone_id` are `omitempty`, so absent when zero. */
  datatype TicketCreate = TicketCreate(
    title: string,
    body: string,
    state: Option<string>,
    assignedUserID: Option<int>,
    milestoneID: Option<int>,
    tag: string)

  /** `bulkEditRequest`: every field is `omitempty`. */
  datatype BulkEditBody = BulkEditBody(query: Option<string>, command: Option<string>, migrationToken: Option<string>)

  datatype BulkEditOptions = BulkEditOptions(query: string, command: string, migrationToken: string)

  /** What a ticket request carries: `{"ticket": <TicketCreate>}` or a bulk edit. */
  datatype Body = CreateBody(create: TicketCreate) | BulkBody(bulk: BulkEditBody)

  /** What a response body decodes to. */
  datatype Payload = Garbled | One(ticket: Ticket) | Many(tickets: seq<Wrapped<Ticket>>)

  /** A ticket service: its base path and the server it talks to. */
  datatype Client = Client(basePath: string, server: Request<Body> -> Reply<Payload>)

  datatype ListOptions = ListOptions(query: string, limit: int, page: int)

  /** `NewService`: tickets live under `/projects/<id>/tickets`. */
  function NewService(root: string, projectID: int, server: Request<Body> -> Reply<Payload>): (c: Client)
    ensures c.basePath == root + "/projects/" + Itoa(projectID) + "/tickets"
  {
    Client(root + "/projects/" + Itoa(projectID) + "/tickets", server)
  }

  // ---------------------------------------------------------------- Number

  /** `Number`: at most one leading `#` is dropped and the rest parsed as a 64-bit decimal integer. */
  function Number(numberStr: string): (r: Result<int, Error>)
    ensures r.Failure? ==> r.error == InvalidTicketNumber(numberStr)
  {
    var str := if |numberStr| > 0 && numberStr[0] == '#' then numberStr[1..] else numberStr;
    match ParseInt(str)
    case None => Failure(InvalidTicketNumber(numberStr))
    case Some(n) => Success(n)
  }

  /** A ticket number reads back from its decimal spelling, with or without one `#`. */
  lemma NumberOfItoa(n: int)
    requires MinInt64 <= n <= MaxInt64
    ensures Number(Itoa(n)) == Success(n)
    ensures Number("#" + Itoa(n)) == Success(n)
  {
    ParseItoa(n);
    assert ("#" + Itoa(n))[1..] == Itoa(n);
  }

  /** Only one `#` is stripped: `##1` is not a ticket number, and neither is the empty string or a bare `#`. */
  lemma NumberRejects(s: string)
    ensures Number("") == Failure(InvalidTicketNumber(""))
    ensures Number("#") == Failure(InvalidTicketNumber("#"))
    ensures Number("##" + s) == Failure(InvalidTicketNumber("##" + s))
  {
    assert ("##" + s)[1..][0] == '#';
  }

  /** Whatever parses is an optional `#`, an optional sign and decimal digits only. */
  lemma NumberSyntax(s: string)
    requires Number(s).Success?
    ensures var body := if |s| > 0 && s[0] == '#' then s[1..] else s;
      body != [] && (IsDigit(body[0]) || body[0] == '+' || body[0] == '-')
      && forall i :: 0 < i < |body| ==> IsDigit(body[i])
  {
    var body := if |s| > 0 && s[0] == '#' then s[1..] else s;
    ParseIntSyntax(body);
  }

  // ---------------------------------------------------------------- AlphabeticalTag

  /** The two-element array `[tag, count]` that `AlphabeticalTag` travels as. */
  function EncodeTag(tag: string, count: int): Json.Value {
    Json.Array([Json.String(tag), Json.Number(count as real)])
  }

  /** What `json.Unmarshal` into `[]interface{}` makes of a value: `null` is the nil slice. */
  function AsArray(v: Json.Value): (r: Option<seq<Json.Value>>)
    ensures r.Some? <==> v.Array? || v.Null?
  {
    match v
    case Null => Some([])
    case Array(items) => Some(items)
    case _ => None
  }

  /** Is `v` a value `UnmarshalJSON` accepts: a string and then a number. */
  predicate IsTagPair(v: Json.Value) {
    v.Array? && |v.items| == 2 && v.items[0].String? && v.items[1].Number?
  }

  /**
   * `AlphabeticalTag.UnmarshalJSON` as a function of the input and the receiver's
   * prior fields: the new tag, the new count and the error.
   */
  function DecodeTag(data: Json.Input, tag: string, count: int): (string, int, Option<Json.DecodeError>) {
    match data
    case Nil => (tag, count, None)
    case Malformed => ("", 0, Some(Json.SyntaxError))
    case Text(v) =>
      match AsArray(v)
      case None => ("", 0, Some(Json.TypeError))
      case Some(arr) =>
        if |arr| != 2 then ("", 0, Some(Json.WrongLength(|arr|)))
        else if !arr[0].String? then ("", 0, Some(Json.NotAString))
        else if !arr[1].Number? then (arr[0].s, 0, Some(Json.NotANumber))
        else (arr[0].s, Json.Truncate(arr[1].x), None)
  }

  /** `AlphabeticalTag`: a tag name and the number of tickets that carry it. */
  class AlphabeticalTag {
    var tag: string
    var count: int

    constructor (tag: string, count: int)
      ensures this.tag == tag && this.count == count
    {
      this.tag := tag;
      this.count := count;
    }

    /** Overwrites the receiver's fields; fields are reset before any check can fail. */
    method UnmarshalJSON(data: Json.Input) returns (err: Option<Json.DecodeError>)
      modifies this
      ensures (tag, count, err) == DecodeTag(data, old(tag), old(count))
    {
      if data.Nil? {
        return None;
      }
      tag := "";
      count := 0;
      if data.Malformed? {
        return Some(Json.SyntaxError);
      }
      var arr := AsArray(data.v);
      if arr.None? {
        return Some(Json.TypeError);
      }
      var items := arr.value;
      if |items| != 2 {
        return Some(Json.WrongLength(|items|));
      }
      if !items[0].String? {
        return Some(Json.NotAString);
      }
      tag := items[0].s;
      if !items[1].Number? {
        return Some(Json.NotANumber);
      }
      count := Json.Truncate(items[1].x);
      return None;
    }
  }

  /** `AlphabeticalTag.MarshalJSON`: `[tag, count]`, and `["", 0]` for a nil receiver. */
  function MarshalTag(at: AlphabeticalTag?): (v: Json.Value)
    reads at
    ensures IsTagPair(v)
    ensures at == null ==> v == EncodeTag("", 0)
    ensures at != null ==> v.items[0].s == at.tag && v.items[1].x == at.count as real
  {
    if at == null then EncodeTag("", 0) else EncodeTag(at.tag, at.count)
  }

  /**
   * Unmarshalling a marshalled tag gives back the same tag and count, whatever
   * the receiver held. The count travels as a float64, so the round trip holds
   * for the counts a float64 represents exactly, those of magnitude at most 2^53.
   */
  lemma TagRoundTrip(tag: string, count: int, priorTag: string, priorCount: int)
    requires -0x20_0000_0000_0000 <= count <= 0x20_0000_0000_0000
    ensures DecodeTag(Json.Text(EncodeTag(tag, count)), priorTag, priorCount) == (tag, count, None)
  {
  }

  /**
   * `UnmarshalJSON` succeeds exactly on nil data and on a string-number pair;
   * after a failure the count is 0, and the tag is "" unless only the count was wrong.
   */
  lemma TagErrors(data: Json.Input, tag: string, count: int)
    ensures var (t, c, err) := DecodeTag(data, tag, count);
      (err.None? <==> data.Nil? || (data.Text? && IsTagPair(data.v)))
      && (err.Some? ==> c == 0)
      && (err.Some? && err != Some(Json.NotANumber) ==> t == "")
      && (err == Some(Json.NotANumber) ==> data.Text? && t == data.v.items[0].s)
  {
  }

  // ---------------------------------------------------------------- listing

  /** `url.Values.Encode` sorts by key: `limit`, `page`, `q`. */
  function ListQuery(opts: Option<ListOptions>): seq<(string, string)> {
    match opts
    case None => []
    case Some(o) =>
      (if o.limit > 0 then [("limit", Itoa(o.limit))] else [])
      + (if o.page > 0 then [("page", Itoa(o.page))] else [])
      + (if |o.query| > 0 then [("q", o.query)] else [])
  }

  /** The value a query holds for `key`, if any. */
  function QueryValue(q: seq<(string, string)>, key: string): Option<string>
    decreases |q|
  {
    if q == [] then None else if q[0].0 == key then Some(q[0].1) else QueryValue(q[1..], key)
  }

  lemma {:induction false} QueryValueConcat(a: seq<(string, string)>, b: seq<(string, string)>, key: string)
    ensures QueryValue(a + b, key) == if QueryValue(a, key).Some? then QueryValue(a, key) else QueryValue(b, key)
    decreases |a|
  {
    if a == [] {
      assert a + b == b;
    } else {
      assert (a + b)[0] == a[0] && (a + b)[1..] == a[1..] + b;
      QueryValueConcat(a[1..], b, key);
    }
  }

  /**
   * `List` adds `q`, `limit` and `page` only when the query is non-empty, the
   * limit positive or the page positive; with no options there is no query at all.
   */
  lemma ListQueryParams(opts: Option<ListOptions>)
    ensures opts.None? ==> ListQuery(opts) == []
    ensures opts.Some? ==>
      && QueryValue(ListQuery(opts), "q") == (if |opts.value.query| > 0 then Some(opts.value.query) else None)
      && QueryValue(ListQuery(opts), "limit") == (if opts.value.limit > 0 then Some(Itoa(opts.value.limit)) else None)
      && QueryValue(ListQuery(opts), "page") == (if opts.value.page > 0 then Some(Itoa(opts.value.page)) else None)
  {
    if opts.Some? {
      var o := opts.value;
      var l: seq<(string, string)> := if o.limit > 0 then [("limit", Itoa(o.limit))] else [];
      var p: seq<(string, string)> := if o.page > 0 then [("page", Itoa(o.page))] else [];
      var q: seq<(string, string)> := if |o.query| > 0 then [("q", o.query)] else [];
      assert ListQuery(opts) == l + p + q;
      QueryValueConcat(l + p, q, "q");
      QueryValueConcat(l, p, "q");
      QueryValueConcat(l + p, q, "limit");
      QueryValueConcat(l, p, "limit");
      QueryValueConcat(l + p, q, "page");
      QueryValueConcat(l, p, "page");
    }
  }

  function ListRequest(c: Client, opts: Option<ListOptions>): Request<Body> {
    Request(GET, c.basePath + ".json", ListQuery(opts), None)
  }

  function DecodeMany(p: Payload): Option<seq<Ticket>> {
    if p.Many? then Some(Unwrap(p.tickets)) else None
  }

  function DecodeOne(p: Payload): Option<Ticket> {
    if p.One? then Some(p.ticket) else None
  }

  /** `List`: one GET of `<base>.json`; a 200 response yields its tickets, one per envelope entry, in order. */
  function List(c: Client, opts: Option<ListOptions>): (o: Outcome<Body, seq<Ticket>>)
    ensures o.sent == [ListRequest(c, opts)]
    ensures o.result.Success? <==>
      c.server(ListRequest(c, opts)).Reply? && c.server(ListRequest(c, opts)).status == StatusOK
      && c.server(ListRequest(c, opts)).payload.Many?
    ensures o.result.Success? ==> o.result.value == Unwrap(c.server(ListRequest(c, opts)).payload.tickets)
  {
    Call(c.server, ListRequest(c, opts), StatusOK, DecodeMany)
  }

  /** The options `ListAll` passes for page `p`: the caller's query and limit, its page ignored. */
  function PageOptions(opts: Option<ListOptions>, p: nat): ListOptions {
    var o := if opts.Some? then opts.value else ListOptions("", 0, 0);
    o.(page := p)
  }

  function PageFetch(c: Client, opts: Option<ListOptions>): nat -> Outcome<Body, seq<Ticket>> {
    (p: nat) => List(c, Some(PageOptions(opts, p)))
  }

  /** Every page request of `ListAll` carries page `p` and the caller's query and limit unchanged. */
  lemma PageQuery(opts: Option<ListOptions>, p: nat)
    requires p >= 1
    ensures QueryValue(ListQuery(Some(PageOptions(opts, p))), "page") == Some(Itoa(p))
    ensures opts.Some? ==> QueryValue(ListQuery(Some(PageOptions(opts, p))), "q") == QueryValue(ListQuery(opts), "q")
    ensures opts.Some? ==> QueryValue(ListQuery(Some(PageOptions(opts, p))), "limit") == QueryValue(ListQuery(opts), "limit")
    ensures opts.None? ==> ListQuery(Some(PageOptions(opts, p))) == [("page", Itoa(p))]
  {
    ListQueryParams(Some(PageOptions(opts, p)));
    ListQueryParams(opts);
  }

  /**
   * `ListAll`: pages 1, 2, ... until the first empty or failing one; the
   * requests are the list requests for pages 1 to that page, in order.
   */
  method ListAll(c: Client, opts: Option<ListOptions>, ghost stop: nat) returns (o: Outcome<Body, seq<Ticket>>)
    requires 1 <= stop && Ends(PageFetch(c, opts)(stop))
    ensures o == AllPages(PageFetch(c, opts), stop)
    ensures |o.sent| == FirstEnd(PageFetch(c, opts), 1, stop)
    ensures forall i :: 0 <= i < |o.sent| ==> o.sent[i] == ListRequest(c, Some(PageOptions(opts, i + 1)))
  {
    o := Service.ListAll(PageFetch(c, opts), stop);
    var k := FirstEnd(PageFetch(c, opts), 1, stop);
    SentOnePerPage(PageFetch(c, opts), p => ListRequest(c, Some(PageOptions(opts, p))), 1, k + 1);
  }

  // ---------------------------------------------------------------- create and bulk edit

  function OmitEmptyString(s: string): Option<string> {
    if s == "" then None else Some(s)
  }

  function OmitEmptyInt(n: int): Option<int> {
    if n == 0 then None else Some(n)
  }

  /** The `TicketCreate` view of a ticket. */
  function CreateView(t: Ticket): TicketCreate {
    TicketCreate(t.title, t.body, OmitEmptyString(t.state), OmitEmptyInt(t.assignedUserID), OmitEmptyInt(t.milestoneID), t.tag)
  }

  /** `Create` sends Title, Body, State, AssignedUserID, MilestoneID and Tag and nothing else. */
  lemma CreateViewFields(t1: Ticket, t2: Ticket)
    ensures CreateView(t1) == CreateView(t2) <==>
      t1.title == t2.title && t1.body == t2.body && t1.state == t2.state
      && t1.assignedUserID == t2.assignedUserID && t1.milestoneID == t2.milestoneID && t1.tag == t2.tag
  {
  }

  /** Zero-valued `omitempty` fields are left out of the request. */
  lemma CreateViewOmits(t: Ticket)
    ensures CreateView(t).state.None? <==> t.state == ""
    ensures CreateView(t).assignedUserID.None? <==> t.assignedUserID == 0
    ensures CreateView(t).milestoneID.None? <==> t.milestoneID == 0
  {
  }

  /** `Create`: POST the view to `<base>.json`, require 201, decode into the caller's ticket and return it. */
  method Create(c: Client, t: Ref<Ticket>) returns (o: Outcome<Body, Ref<Ticket>>)
    modifies t
    ensures o.sent == [Request(POST, c.basePath + ".json", [], Some(CreateBody(CreateView(old(t.value)))))]
    ensures o.result.Success? <==>
      c.server(o.sent[0]).Reply? && c.server(o.sent[0]).status == StatusCreated && c.server(o.sent[0]).payload.One?
    ensures o.result.Success? ==>
      o.result.value == t && c.server(o.sent[0]).Reply?
      && c.server(o.sent[0]).status == StatusCreated && c.server(o.sent[0]).payload == One(t.value)
    ensures o.result.Failure? ==> t.value == old(t.value)
  {
    var req := Request(POST, c.basePath + ".json", [], Some(CreateBody(CreateView(t.value))));
    o := CreateInto(c.server, req, DecodeOne, t);
  }

  function BulkEditPath(c: Client): string {
    TrimSuffix(c.basePath, "/tickets") + "/bulk_edit.json"
  }

  /** `BulkEdit`: POST the three omitempty fields to the project's `bulk_edit.json`, require 200. */
  function BulkEdit(c: Client, opts: BulkEditOptions): (o: Outcome<Body, ()>)
    ensures o.sent == [Request(POST, BulkEditPath(c), [],
      Some(BulkBody(BulkEditBody(OmitEmptyString(opts.query), OmitEmptyString(opts.command), OmitEmptyString(opts.migrationToken)))))]
    ensures o.result.Success? <==> c.server(o.sent[0]).Reply? && c.server(o.sent[0]).status == StatusOK
  {
    var body := BulkEditBody(OmitEmptyString(opts.query), OmitEmptyString(opts.command), OmitEmptyString(opts.migrationToken));
    Call(c.server, Request(POST, BulkEditPath(c), [], Some(BulkBody(body))), StatusOK, (_: Payload) => Some(()))
  }

  /** Bulk edits go to the project, not to its ticket list: `/projects/<id>/bulk_edit.json`. */
  lemma BulkEditGoesToProject(root: string, projectID: int, server: Request<Body> -> Reply<Payload>)
    ensures BulkEditPath(NewService(root, projectID, server)) == root + "/projects/" + Itoa(projectID) + "/bulk_edit.json"
  {
    var project := root + "/projects/" + Itoa(projectID);
    var base := project + "/tickets";
    assert base[|base| - |"/tickets"|..] == "/tickets";
    assert base[..|base| - |"/tickets"|] == project;
  }
}
