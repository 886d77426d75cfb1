/**
 * The message service of one project: listing, lookup by ID or by title,
 * deletion, the narrow create/update view, and comments on a message.
 */
module Messages {
  import opened Wrappers
  import opened Strings
  import opened Decimal
  import opened Service

  /** The fields of a message the model keeps; `Create` and `Update` read two of them. */
  datatype Message = Message(
    id: int,
    title: string,
    body: string,
    userID: int,
    projectID: int,
    permalink: string,
    commentsCount: int)

  /** The fields of a comment the model keeps; `CreateComment` reads two of them. */
  datatype Comment = Comment(id: int, title: string, body: string, parentID: int, userID: int)

  /** `MessageCreate` and `MessageUpdate`, which have the same two fields. */
  datatype MessageView = MessageView(body: string, title: string)

  /** `CommentCreate`. */
  datatype CommentView = CommentView(body: string, title: string)

  /** What a message request carries: `{"message": <view>}` or `{"comment": <view>}`. */
  datatype Body = MessageBody(message: MessageView) | CommentBody(comment: CommentView)

  datatype Payload = Garbled | One(message: Message) | Many(messages: seq<Wrapped<Message>>)

  /** A message service: base path, server, and `lighthouse.ID`, which is not part of this model. */
  datatype Client = Client(basePath: string, server: Request<Body> -> Reply<Payload>, parseID: string -> Option<int>)

  function NewService(root: string, projectID: int, server: Request<Body> -> Reply<Payload>, parseID: string -> Option<int>): (c: Client)
    ensures c.basePath == root + "/projects/" + Itoa(projectID) + "/messages"
  {
    Client(root + "/projects/" + Itoa(projectID) + "/messages", server, parseID)
  }

  function ItemPath(c: Client, id: int): string {
    c.basePath + "/" + Itoa(id) + ".json"
  }

  function ListRequest(c: Client): Request<Body> {
    Plain(GET, c.basePath + ".json")
  }

  function DecodeMany(p: Payload): Option<seq<Message>> {
    if p.Many? then Some(Unwrap(p.messages)) else None
  }

  function DecodeOne(p: Payload): Option<Message> {
    if p.One? then Some(p.message) else None
  }

  function Nothing(p: Payload): Option<()> {
    Some(())
  }

  /** `List`: GET `<base>.json`, 200, one message per envelope entry in order. */
  function List(c: Client): (o: Outcome<Body, seq<Message>>)
    ensures o.sent == [ListRequest(c)]
    ensures o.result.Success? <==>
      c.server(ListRequest(c)).Reply? && c.server(ListRequest(c)).status == StatusOK && c.server(ListRequest(c)).payload.Many?
    ensures o.result.Success? ==> o.result.value == Unwrap(c.server(ListRequest(c)).payload.messages)
  {
    Call(c.server, ListRequest(c), StatusOK, DecodeMany)
  }

  /** `GetByID`: GET `<base>/<id>.json`, 200, the decoded message. */
  function GetByID(c: Client, id: int): (o: Outcome<Body, Message>)
    ensures o.sent == [Plain(GET, ItemPath(c, id))]
    ensures o.result.Success? <==>
      c.server(o.sent[0]).Reply? && c.server(o.sent[0]).status == StatusOK && c.server(o.sent[0]).payload.One?
    ensures o.result.Success? ==> o.result.value == c.server(o.sent[0]).payload.message
  {
    Call(c.server, Plain(GET, ItemPath(c, id)), StatusOK, DecodeOne)
  }

  function MessageTitle(m: Message): string {
    m.title
  }

  /** `GetByTitle`: one `List`, then the first message whose title matches case-insensitively, or "no such message". */
  function GetByTitle(c: Client, title: string): (o: Outcome<Body, Message>)
    ensures o.sent == [ListRequest(c)]
    ensures o.result.Success? ==>
      List(c).result.Success? && var ms := List(c).result.value;
      exists i :: 0 <= i < |ms| && o.result.value == ms[i] && SameFold(ms[i].title, title)
        && forall j :: 0 <= j < i ==> !SameFold(ms[j].title, title)
    ensures List(c).result.Failure? ==> o.result == Failure(List(c).result.error)
    ensures List(c).result.Success? && o.result.Failure? ==>
      o.result.error == NoSuch("message", title)
      && forall m :: m in List(c).result.value ==> !SameFold(m.title, title)
  {
    Then(List(c), (ms: seq<Message>) => Pick(ms, MessageTitle, "message", title))
  }

  /** `Get`: by ID when the argument parses as one, by title otherwise. */
  function Get(c: Client, idOrTitle: string): (o: Outcome<Body, Message>)
    ensures c.parseID(idOrTitle).Some? ==> o == GetByID(c, c.parseID(idOrTitle).value)
    ensures c.parseID(idOrTitle).None? ==> o == GetByTitle(c, idOrTitle)
    ensures |o.sent| == 1
    ensures o.sent[0] == if c.parseID(idOrTitle).Some? then Plain(GET, ItemPath(c, c.parseID(idOrTitle).value)) else ListRequest(c)
  {
    Dispatch(c.parseID, idOrTitle, (id: int) => GetByID(c, id), (t: string) => GetByTitle(c, t))
  }

  function DeleteByID(c: Client, id: int): (o: Outcome<Body, ()>)
    ensures o.sent == [Plain(DELETE, ItemPath(c, id))]
    ensures o.result.Success? <==> c.server(o.sent[0]).Reply? && c.server(o.sent[0]).status == StatusOK
  {
    Call(c.server, Plain(DELETE, ItemPath(c, id)), StatusOK, Nothing)
  }

  /** `DeleteByTitle`: delete exactly the message the title lookup found; no delete when the lookup fails. */
  function DeleteByTitle(c: Client, title: string): (o: Outcome<Body, ()>)
    ensures GetByTitle(c, title).result.Failure? ==>
      o.result == Failure(GetByTitle(c, title).result.error) && o.sent == [ListRequest(c)]
    ensures GetByTitle(c, title).result.Success? ==>
      var found := GetByTitle(c, title).result.value;
      o.result == DeleteByID(c, found.id).result && o.sent == [ListRequest(c), Plain(DELETE, ItemPath(c, found.id))]
  {
    Then(GetByTitle(c, title), (m: Message) => DeleteByID(c, m.id))
  }

  /** `Delete`: the DELETE goes to the parsed ID directly, or to the ID the title lookup found. */
  function Delete(c: Client, idOrTitle: string): (o: Outcome<Body, ()>)
    ensures c.parseID(idOrTitle).Some? ==> o == DeleteByID(c, c.parseID(idOrTitle).value)
    ensures c.parseID(idOrTitle).Some? ==> o.sent == [Plain(DELETE, ItemPath(c, c.parseID(idOrTitle).value))]
    ensures c.parseID(idOrTitle).None? ==> o == DeleteByTitle(c, idOrTitle)
  {
    Dispatch(c.parseID, idOrTitle, (id: int) => DeleteByID(c, id), (t: string) => DeleteByTitle(c, t))
  }

  // ---------------------------------------------------------------- create, update, comment

  function View(m: Message): MessageView {
    MessageView(m.body, m.title)
  }

  function CommentOf(cm: Comment): CommentView {
    CommentView(cm.body, cm.title)
  }

  /** `Create`, `Update` and `CreateComment` send Body and Title and nothing else. */
  lemma ViewFields(m1: Message, m2: Message, c1: Comment, c2: Comment)
    ensures View(m1) == View(m2) <==> m1.body == m2.body && m1.title == m2.title
    ensures CommentOf(c1) == CommentOf(c2) <==> c1.body == c2.body && c1.title == c2.title
  {
  }

  /** `Create`: POST the view to `<base>.json`, require 201, decode into the caller's message and return it. */
  method Create(c: Client, m: Ref<Message>) returns (o: Outcome<Body, Ref<Message>>)
    modifies m
    ensures o.sent == [Request(POST, c.basePath + ".json", [], Some(MessageBody(View(old(m.value)))))]
    ensures o.result.Success? <==>
      c.server(o.sent[0]).Reply? && c.server(o.sent[0]).status == StatusCreated && c.server(o.sent[0]).payload.One?
    ensures o.result.Success? ==>
      o.result.value == m && c.server(o.sent[0]).Reply?
      && c.server(o.sent[0]).status == StatusCreated && c.server(o.sent[0]).payload == One(m.value)
    ensures o.result.Failure? ==> m.value == old(m.value)
  {
    var req := Request(POST, c.basePath + ".json", [], Some(MessageBody(View(m.value))));
    o := CreateInto(c.server, req, DecodeOne, m);
  }

  /** `Update`: PUT the view to `<base>/<id>.json`; only 200 counts as success. */
  function Update(c: Client, m: Message): (o: Outcome<Body, ()>)
    ensures o.sent == [Request(PUT, ItemPath(c, m.id), [], Some(MessageBody(View(m))))]
    ensures o.result.Success? <==> c.server(o.sent[0]).Reply? && c.server(o.sent[0]).status == StatusOK
  {
    Call(c.server, Request(PUT, ItemPath(c, m.id), [], Some(MessageBody(View(m)))), StatusOK, Nothing)
  }

  function CommentsPath(c: Client, id: int): string {
    c.basePath + "/" + Itoa(id) + "/comments.json"
  }

  /**
   * `CreateCommentByID`: POST the comment view to `<base>/<id>/comments.json`,
   * require 201, and return the message the response decodes to; the caller's
   * comment is only read.
   */
  function CreateCommentByID(c: Client, id: int, cm: Comment): (o: Outcome<Body, Message>)
    ensures o.sent == [Request(POST, CommentsPath(c, id), [], Some(CommentBody(CommentOf(cm))))]
    ensures o.result.Success? <==>
      var reply := c.server(o.sent[0]);
      reply.Reply? && reply.status == StatusCreated && reply.payload.One?
    ensures o.result.Success? ==> o.result.value == c.server(o.sent[0]).payload.message
  {
    Call(c.server, Request(POST, CommentsPath(c, id), [], Some(CommentBody(CommentOf(cm)))), StatusCreated, DecodeOne)
  }

  /** `CreateCommentByTitle`: comment on exactly the message the title lookup found; nothing is posted when it fails. */
  function CreateCommentByTitle(c: Client, title: string, cm: Comment): (o: Outcome<Body, Message>)
    ensures GetByTitle(c, title).result.Failure? ==>
      o.result == Failure(GetByTitle(c, title).result.error) && o.sent == [ListRequest(c)]
    ensures GetByTitle(c, title).result.Success? ==>
      var found := GetByTitle(c, title).result.value;
      o.result == CreateCommentByID(c, found.id, cm).result
      && o.sent == [ListRequest(c), Request(POST, CommentsPath(c, found.id), [], Some(CommentBody(CommentOf(cm))))]
  {
    Then(GetByTitle(c, title), (m: Message) => CreateCommentByID(c, m.id, cm))
  }

  /** `CreateComment`: by ID when the argument parses as one, through the title lookup otherwise. */
  function CreateComment(c: Client, idOrTitle: string, cm: Comment): (o: Outcome<Body, Message>)
    ensures c.parseID(idOrTitle).Some? ==> o == CreateCommentByID(c, c.parseID(idOrTitle).value, cm)
    ensures c.parseID(idOrTitle).Some? ==>
      o.sent == [Request(POST, CommentsPath(c, c.parseID(idOrTitle).value), [], Some(CommentBody(CommentOf(cm))))]
    ensures c.parseID(idOrTitle).None? ==> o == CreateCommentByTitle(c, idOrTitle, cm)
  {
    Dispatch(c.parseID, idOrTitle, (id: int) => CreateCommentByID(c, id, cm), (t: string) => CreateCommentByTitle(c, t, cm))
  }
}
