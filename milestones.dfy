/**
 * The milestone service of one project: paged listing, lookup by ID or by
 * title across all pages, closing, reopening and deleting by ID or title,
 * and the narrow create/update view.
 */
module Milestones {
  import opened Wrappers
  import opened Strings
  import opened Decimal
  import opened Service

  /** The fields of a milestone the model keeps; timestamps are integers. */
  datatype Milestone = Milestone(
    id: int,
    title: string,
    goals: string,
    dueOn: Option<int>,
    createdAt: Option<int>,
    completedAt: Option<int>,
    projectID: int,
    position: int,
    openTicketsCount: int)

  /** `MilestoneCreate` and `MilestoneUpdate`, which have the same three fields; a nil due date is sent as `null`. */
  datatype MilestoneView = MilestoneView(goals: string, title: string, dueOn: Option<int>)

  /** What a milestone request carries: `{"milestone": <view>}`. */
  datatype Body = MilestoneBody(view: MilestoneView)

  datatype Payload = Garbled | One(milestone: Milestone) | Many(milestones: seq<Wrapped<Milestone>>)

  /** A milestone service: base path, server, and `lighthouse.ID`, which is not part of this model. */
  datatype Client = Client(basePath: string, server: Request<Body> -> Reply<Payload>, parseID: string -> Option<int>)

  datatype ListOptions = ListOptions(page: int)

  function NewService(root: string, projectID: int, server: Request<Body> -> Reply<Payload>, parseID: string -> Option<int>): (c: Client)
    ensures c.basePath == root + "/projects/" + Itoa(projectID) + "/milestones"
  {
    Client(root + "/projects/" + Itoa(projectID) + "/milestones", server, parseID)
  }

  function ItemPath(c: Client, id: int): string {
    c.basePath + "/" + Itoa(id) + ".json"
  }

  function ActionPath(c: Client, id: int, action: string): string {
    c.basePath + "/" + Itoa(id) + "/" + action + ".json"
  }

  function DecodeMany(p: Payload): Option<seq<Milestone>> {
    if p.Many? then Some(Unwrap(p.milestones)) else None
  }

  function DecodeOne(p: Payload): Option<Milestone> {
    if p.One? then Some(p.milestone) else None
  }

  function Nothing(p: Payload): Option<()> {
    Some(())
  }

  // ---------------------------------------------------------------- listing

  /** The query of `List`: a `page` parameter only when the page is positive. */
  function ListQuery(opts: Option<ListOptions>): (q: seq<(string, string)>)
    ensures q == [] || (opts.Some? && q == [("page", Itoa(opts.value.page))])
    ensures q != [] <==> opts.Some? && opts.value.page > 0
  {
    if opts.Some? && opts.value.page > 0 then [("page", Itoa(opts.value.page))] else []
  }

  function ListRequest(c: Client, opts: Option<ListOptions>): Request<Body> {
    Request(GET, c.basePath + ".json", ListQuery(opts), None)
  }

  /** `List`: GET `<base>.json` with the page query, 200, one milestone per envelope entry in order. */
  function List(c: Client, opts: Option<ListOptions>): (o: Outcome<Body, seq<Milestone>>)
    ensures o.sent == [ListRequest(c, opts)]
    ensures o.result.Success? <==>
      var reply := c.server(ListRequest(c, opts));
      reply.Reply? && reply.status == StatusOK && reply.payload.Many?
    ensures o.result.Success? ==> o.result.value == Unwrap(c.server(ListRequest(c, opts)).payload.milestones)
  {
    Call(c.server, ListRequest(c, opts), StatusOK, DecodeMany)
  }

  /** Page `p` of the listing; the caller's own page option plays no part, since `ListAll` overwrites it. */
  function PageFetch(c: Client): nat -> Outcome<Body, seq<Milestone>> {
    (p: nat) => List(c, Some(ListOptions(p)))
  }

  /** `ListAll`: pages 1, 2, ... until the first empty or failing one; one list request per page, in order. */
  method ListAll(c: Client, opts: Option<ListOptions>, ghost stop: nat) returns (o: Outcome<Body, seq<Milestone>>)
    requires 1 <= stop && Ends(PageFetch(c)(stop))
    ensures o == AllPages(PageFetch(c), stop)
    ensures |o.sent| == FirstEnd(PageFetch(c), 1, stop)
    ensures forall i :: 0 <= i < |o.sent| ==> o.sent[i] == Request(GET, c.basePath + ".json", [("page", Itoa(i + 1))], None)
  {
    o := Service.ListAll(PageFetch(c), stop);
    var k := FirstEnd(PageFetch(c), 1, stop);
    SentOnePerPage(PageFetch(c), (p: nat) => ListRequest(c, Some(ListOptions(p))), 1, k + 1);
  }

  // ---------------------------------------------------------------- lookup

  /** `GetByID`: GET `<base>/<id>.json`, 200, the decoded milestone. */
  function GetByID(c: Client, id: int): (o: Outcome<Body, Milestone>)
    ensures o.sent == [Plain(GET, ItemPath(c, id))]
    ensures o.result.Success? <==>
      c.server(o.sent[0]).Reply? && c.server(o.sent[0]).status == StatusOK && c.server(o.sent[0]).payload.One?
    ensures o.result.Success? ==> o.result.value == c.server(o.sent[0]).payload.milestone
  {
    Call(c.server, Plain(GET, ItemPath(c, id)), StatusOK, DecodeOne)
  }

  function MilestoneTitle(m: Milestone): string {
    m.title
  }

  /**
   * `GetByTitle`: every page through `ListAll`, then the first milestone
   * whose title matches case-insensitively, or "no such milestone".
   */
  method GetByTitle(c: Client, title: string, ghost stop: nat) returns (o: Outcome<Body, Milestone>)
    requires 1 <= stop && Ends(PageFetch(c)(stop))
    ensures var all := AllPages(PageFetch(c), stop);
      && o.sent == all.sent
      && (all.result.Failure? ==> o.result == Failure(all.result.error))
      && (all.result.Success? && o.result.Success? ==>
        exists i :: 0 <= i < |all.result.value| && o.result.value == all.result.value[i]
          && SameFold(all.result.value[i].title, title)
          && forall j :: 0 <= j < i ==> !SameFold(all.result.value[j].title, title))
      && (all.result.Success? && o.result.Failure? ==>
        o.result.error == NoSuch("milestone", title)
        && forall m :: m in all.result.value ==> !SameFold(m.title, title))
  {
    var all := ListAll(c, Some(ListOptions(0)), stop);
    if all.result.Failure? {
      return Outcome(Failure(all.result.error), all.sent);
    }
    var picked: Outcome<Body, Milestone> := Pick(all.result.value, MilestoneTitle, "milestone", title);
    return Outcome(picked.result, all.sent);
  }

  /** `Get`: by ID when the argument parses as one, by title otherwise. */
  method Get(c: Client, idOrTitle: string, ghost stop: nat) returns (o: Outcome<Body, Milestone>)
    requires c.parseID(idOrTitle).None? ==> 1 <= stop && Ends(PageFetch(c)(stop))
    ensures c.parseID(idOrTitle).Some? ==> o == GetByID(c, c.parseID(idOrTitle).value)
    ensures c.parseID(idOrTitle).None? ==> var all := AllPages(PageFetch(c), stop);
      && o.sent == all.sent
      && (all.result.Failure? ==> o.result == Failure(all.result.error))
      && (all.result.Success? && o.result.Success? ==>
        exists i :: 0 <= i < |all.result.value| && o.result.value == all.result.value[i]
          && SameFold(all.result.value[i].title, idOrTitle)
          && forall j :: 0 <= j < i ==> !SameFold(all.result.value[j].title, idOrTitle))
      && (all.result.Success? && o.result.Failure? ==>
        o.result.error == NoSuch("milestone", idOrTitle)
        && forall m :: m in all.result.value ==> !SameFold(m.title, idOrTitle))
  {
    match c.parseID(idOrTitle)
    case Some(id) => o := GetByID(c, id);
    case None => o := GetByTitle(c, idOrTitle, stop);
  }

  // ---------------------------------------------------------------- close, open, delete

  /** `CloseByID`: PUT `<base>/<id>/close.json`, 200. */
  function CloseByID(c: Client, id: int): (o: Outcome<Body, ()>)
    ensures o.sent == [Plain(PUT, ActionPath(c, id, "close"))]
    ensures o.result.Success? <==> c.server(o.sent[0]).Reply? && c.server(o.sent[0]).status == StatusOK
  {
    Call(c.server, Plain(PUT, ActionPath(c, id, "close")), StatusOK, Nothing)
  }

  /** `OpenByID`: PUT `<base>/<id>/open.json`, 200. */
  function OpenByID(c: Client, id: int): (o: Outcome<Body, ()>)
    ensures o.sent == [Plain(PUT, ActionPath(c, id, "open"))]
    ensures o.result.Success? <==> c.server(o.sent[0]).Reply? && c.server(o.sent[0]).status == StatusOK
  {
    Call(c.server, Plain(PUT, ActionPath(c, id, "open")), StatusOK, Nothing)
  }

  /** `DeleteByID`: DELETE `<base>/<id>.json`, 200. */
  function DeleteByID(c: Client, id: int): (o: Outcome<Body, ()>)
    ensures o.sent == [Plain(DELETE, ItemPath(c, id))]
    ensures o.result.Success? <==> c.server(o.sent[0]).Reply? && c.server(o.sent[0]).status == StatusOK
  {
    Call(c.server, Plain(DELETE, ItemPath(c, id)), StatusOK, Nothing)
  }

  /**
   * The shape shared by `CloseByTitle`, `OpenByTitle` and `DeleteByTitle`:
   * look the title up, then act on exactly the ID found; nothing more is sent
   * when the lookup fails.
   */
  method ActOnTitle(c: Client, title: string, act: int -> Outcome<Body, ()>, ghost stop: nat) returns (o: Outcome<Body, ()>)
    requires 1 <= stop && Ends(PageFetch(c)(stop))
    ensures var all := AllPages(PageFetch(c), stop);
      && (all.result.Failure? ==> o == Outcome(Failure(all.result.error), all.sent))
      && (all.result.Success? && FindFold(all.result.value, MilestoneTitle, title).None? ==>
        o == Outcome(Failure(NoSuch("milestone", title)), all.sent))
      && (all.result.Success? && FindFold(all.result.value, MilestoneTitle, title).Some? ==>
        var found := all.result.value[FindFold(all.result.value, MilestoneTitle, title).value];
        o == Outcome(act(found.id).result, all.sent + act(found.id).sent))
  {
    var m := GetByTitle(c, title, stop);
    if m.result.Failure? {
      return Outcome(Failure(m.result.error), m.sent);
    }
    var done := act(m.result.value.id);
    return Outcome(done.result, m.sent + done.sent);
  }

  /** `CloseByTitle`: close exactly the milestone the title lookup found. */
  method CloseByTitle(c: Client, title: string, ghost stop: nat) returns (o: Outcome<Body, ()>)
    requires 1 <= stop && Ends(PageFetch(c)(stop))
    ensures var all := AllPages(PageFetch(c), stop);
      && (all.result.Success? && FindFold(all.result.value, MilestoneTitle, title).Some? ==>
        var found := all.result.value[FindFold(all.result.value, MilestoneTitle, title).value];
        o == Outcome(CloseByID(c, found.id).result, all.sent + CloseByID(c, found.id).sent))
      && (all.result.Failure? ==> o == Outcome(Failure(all.result.error), all.sent))
      && (all.result.Success? && FindFold(all.result.value, MilestoneTitle, title).None? ==>
        o == Outcome(Failure(NoSuch("milestone", title)), all.sent))
      && all.sent <= o.sent
      && (o.result.Success? ==>
        all.result.Success? && FindFold(all.result.value, MilestoneTitle, title).Some?
        && o.sent == all.sent + [Plain(PUT, ActionPath(c, all.result.value[FindFold(all.result.value, MilestoneTitle, title).value].id, "close"))])
      && (all.result.Failure? || FindFold(all.result.value, MilestoneTitle, title).None? ==> o.sent == all.sent && o.result.Failure?)
  {
    o := ActOnTitle(c, title, (id: int) => CloseByID(c, id), stop);
  }

  /** `OpenByTitle`: reopen exactly the milestone the title lookup found. */
  method OpenByTitle(c: Client, title: string, ghost stop: nat) returns (o: Outcome<Body, ()>)
    requires 1 <= stop && Ends(PageFetch(c)(stop))
    ensures var all := AllPages(PageFetch(c), stop);
      && (all.result.Success? && FindFold(all.result.value, MilestoneTitle, title).Some? ==>
        var found := all.result.value[FindFold(all.result.value, MilestoneTitle, title).value];
        o == Outcome(OpenByID(c, found.id).result, all.sent + OpenByID(c, found.id).sent))
      && (all.result.Failure? ==> o == Outcome(Failure(all.result.error), all.sent))
      && (all.result.Success? && FindFold(all.result.value, MilestoneTitle, title).None? ==>
        o == Outcome(Failure(NoSuch("milestone", title)), all.sent))
      && all.sent <= o.sent
      && (o.result.Success? ==>
        all.result.Success? && FindFold(all.result.value, MilestoneTitle, title).Some?
        && o.sent == all.sent + [Plain(PUT, ActionPath(c, all.result.value[FindFold(all.result.value, MilestoneTitle, title).value].id, "open"))])
      && (all.result.Failure? || FindFold(all.result.value, MilestoneTitle, title).None? ==> o.sent == all.sent && o.result.Failure?)
  {
    o := ActOnTitle(c, title, (id: int) => OpenByID(c, id), stop);
  }

  /** `DeleteByTitle`: delete exactly the milestone the title lookup found. */
  method DeleteByTitle(c: Client, title: string, ghost stop: nat) returns (o: Outcome<Body, ()>)
    requires 1 <= stop && Ends(PageFetch(c)(stop))
    ensures var all := AllPages(PageFetch(c), stop);
      && (all.result.Success? && FindFold(all.result.value, MilestoneTitle, title).Some? ==>
        var found := all.result.value[FindFold(all.result.value, MilestoneTitle, title).value];
        o == Outcome(DeleteByID(c, found.id).result, all.sent + DeleteByID(c, found.id).sent))
      && (all.result.Failure? ==> o == Outcome(Failure(all.result.error), all.sent))
      && (all.result.Success? && FindFold(all.result.value, MilestoneTitle, title).None? ==>
        o == Outcome(Failure(NoSuch("milestone", title)), all.sent))
      && all.sent <= o.sent
      && (o.result.Success? ==>
        all.result.Success? && FindFold(all.result.value, MilestoneTitle, title).Some?
        && o.sent == all.sent + [Plain(DELETE, ItemPath(c, all.result.value[FindFold(all.result.value, MilestoneTitle, title).value].id))])
      && (all.result.Failure? || FindFold(all.result.value, MilestoneTitle, title).None? ==> o.sent == all.sent && o.result.Failure?)
  {
    o := ActOnTitle(c, title, (id: int) => DeleteByID(c, id), stop);
  }

  /** `Close`: by ID when the argument parses as one, through the title lookup otherwise. */
  method Close(c: Client, idOrTitle: string, ghost stop: nat) returns (o: Outcome<Body, ()>)
    requires c.parseID(idOrTitle).None? ==> 1 <= stop && Ends(PageFetch(c)(stop))
    ensures c.parseID(idOrTitle).Some? ==> o == CloseByID(c, c.parseID(idOrTitle).value)
    ensures c.parseID(idOrTitle).Some? ==> o.sent == [Plain(PUT, ActionPath(c, c.parseID(idOrTitle).value, "close"))]
    ensures c.parseID(idOrTitle).None? ==> var all := AllPages(PageFetch(c), stop);
      && (all.result.Success? && FindFold(all.result.value, MilestoneTitle, idOrTitle).Some? ==>
        var found := all.result.value[FindFold(all.result.value, MilestoneTitle, idOrTitle).value];
        o == Outcome(CloseByID(c, found.id).result, all.sent + CloseByID(c, found.id).sent))
      && (all.result.Failure? ==> o == Outcome(Failure(all.result.error), all.sent))
      && (all.result.Success? && FindFold(all.result.value, MilestoneTitle, idOrTitle).None? ==>
        o == Outcome(Failure(NoSuch("milestone", idOrTitle)), all.sent))
    ensures c.parseID(idOrTitle).None? ==> AllPages(PageFetch(c), stop).sent <= o.sent
  {
    match c.parseID(idOrTitle)
    case Some(id) => o := CloseByID(c, id);
    case None => o := CloseByTitle(c, idOrTitle, stop);
  }

  /** `Open`: by ID when the argument parses as one, through the title lookup otherwise. */
  method Open(c: Client, idOrTitle: string, ghost stop: nat) returns (o: Outcome<Body, ()>)
    requires c.parseID(idOrTitle).None? ==> 1 <= stop && Ends(PageFetch(c)(stop))
    ensures c.parseID(idOrTitle).Some? ==> o == OpenByID(c, c.parseID(idOrTitle).value)
    ensures c.parseID(idOrTitle).Some? ==> o.sent == [Plain(PUT, ActionPath(c, c.parseID(idOrTitle).value, "open"))]
    ensures c.parseID(idOrTitle).None? ==> var all := AllPages(PageFetch(c), stop);
      && (all.result.Success? && FindFold(all.result.value, MilestoneTitle, idOrTitle).Some? ==>
        var found := all.result.value[FindFold(all.result.value, MilestoneTitle, idOrTitle).value];
        o == Outcome(OpenByID(c, found.id).result, all.sent + OpenByID(c, found.id).sent))
      && (all.result.Failure? ==> o == Outcome(Failure(all.result.error), all.sent))
      && (all.result.Success? && FindFold(all.result.value, MilestoneTitle, idOrTitle).None? ==>
        o == Outcome(Failure(NoSuch("milestone", idOrTitle)), all.sent))
    ensures c.parseID(idOrTitle).None? ==> AllPages(PageFetch(c), stop).sent <= o.sent
  {
    match c.parseID(idOrTitle)
    case Some(id) => o := OpenByID(c, id);
    case None => o := OpenByTitle(c, idOrTitle, stop);
  }

  /** `Delete`: by ID when the argument parses as one, through the title lookup otherwise. */
  method Delete(c: Client, idOrTitle: string, ghost stop: nat) returns (o: Outcome<Body, ()>)
    requires c.parseID(idOrTitle).None? ==> 1 <= stop && Ends(PageFetch(c)(stop))
    ensures c.parseID(idOrTitle).Some? ==> o == DeleteByID(c, c.parseID(idOrTitle).value)
    ensures c.parseID(idOrTitle).Some? ==> o.sent == [Plain(DELETE, ItemPath(c, c.parseID(idOrTitle).value))]
    ensures c.parseID(idOrTitle).None? ==> var all := AllPages(PageFetch(c), stop);
      && (all.result.Success? && FindFold(all.result.value, MilestoneTitle, idOrTitle).Some? ==>
        var found := all.result.value[FindFold(all.result.value, MilestoneTitle, idOrTitle).value];
        o == Outcome(DeleteByID(c, found.id).result, all.sent + DeleteByID(c, found.id).sent))
      && (all.result.Failure? ==> o == Outcome(Failure(all.result.error), all.sent))
      && (all.result.Success? && FindFold(all.result.value, MilestoneTitle, idOrTitle).None? ==>
        o == Outcome(Failure(NoSuch("milestone", idOrTitle)), all.sent))
    ensures c.parseID(idOrTitle).None? ==> AllPages(PageFetch(c), stop).sent <= o.sent
  {
    match c.parseID(idOrTitle)
    case Some(id) => o := DeleteByID(c, id);
    case None => o := DeleteByTitle(c, idOrTitle, stop);
  }

  // ---------------------------------------------------------------- create and update

  function View(m: Milestone): MilestoneView {
    MilestoneView(m.goals, m.title, m.dueOn)
  }

  /** `Create` and `Update` send Goals, Title and DueOn and nothing else. */
  lemma ViewFields(m1: Milestone, m2: Milestone)
    ensures View(m1) == View(m2) <==> m1.goals == m2.goals && m1.title == m2.title && m1.dueOn == m2.dueOn
  {
  }

  /** `Create`: POST the view to `<base>.json`, require 201, decode into the caller's milestone and return it. */
  method Create(c: Client, m: Ref<Milestone>) returns (o: Outcome<Body, Ref<Milestone>>)
    modifies m
    ensures o.sent == [Request(POST, c.basePath + ".json", [], Some(MilestoneBody(View(old(m.value)))))]
    ensures o.result.Success? <==>
      c.server(o.sent[0]).Reply? && c.server(o.sent[0]).status == StatusCreated && c.server(o.sent[0]).payload.One?
    ensures o.result.Success? ==>
      o.result.value == m && c.server(o.sent[0]).Reply?
      && c.server(o.sent[0]).status == StatusCreated && c.server(o.sent[0]).payload == One(m.value)
    ensures o.result.Failure? ==> m.value == old(m.value)
  {
    var req := Request(POST, c.basePath + ".json", [], Some(MilestoneBody(View(m.value))));
    o := CreateInto(c.server, req, DecodeOne, m);
  }

  /** `Update`: PUT the view to `<base>/<id>.json`; only 200 counts as success. */
  function Update(c: Client, m: Milestone): (o: Outcome<Body, ()>)
    ensures o.sent == [Request(PUT, ItemPath(c, m.id), [], Some(MilestoneBody(View(m))))]
    ensures o.result.Success? <==> c.server(o.sent[0]).Reply? && c.server(o.sent[0]).status == StatusOK
  {
    Call(c.server, Request(PUT, ItemPath(c, m.id), [], Some(MilestoneBody(View(m)))), StatusOK, Nothing)
  }
}
