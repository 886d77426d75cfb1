/**
 * The ticket-bin service of one project (saved ticket searches): listing,
 * lookup by ID or by name, deletion, and the narrow create/update view, which
 * travels under the key `ticket_bin`.
 */
module Bins {
  import opened Wrappers
  import opened Strings
  import opened Decimal
  import opened Service

  /** The fields of a bin the model keeps; `Create` and `Update` read three of them. */
  datatype Bin = Bin(
    id: int,
    name: string,
    query: string,
    isDefault: bool,
    position: int,
    shared: bool,
    ticketsCount: int,
    userID: int,
    global: bool)

  /** `BinCreate` and `BinUpdate`, which have the same three fields. */
  datatype BinView = BinView(isDefault: bool, name: string, query: string)

  /** The JSON key a bin request wraps its view in. */
  const RequestKey: string := "ticket_bin"

  /** What a bin request carries: `{<key>: <view>}`. */
  datatype Body = BinBody(key: string, view: BinView)

  datatype Payload = Garbled | One(bin: Bin) | Many(bins: seq<Wrapped<Bin>>)

  /** A bin service: base path, server, and `lighthouse.ID`, which is not part of this model. */
  datatype Client = Client(basePath: string, server: Request<Body> -> Reply<Payload>, parseID: string -> Option<int>)

  function NewService(root: string, projectID: int, server: Request<Body> -> Reply<Payload>, parseID: string -> Option<int>): (c: Client)
    ensures c.basePath == root + "/projects/" + Itoa(projectID) + "/bins"
  {
    Client(root + "/projects/" + Itoa(projectID) + "/bins", server, parseID)
  }

  function ItemPath(c: Client, id: int): string {
    c.basePath + "/" + Itoa(id) + ".json"
  }

  function ListRequest(c: Client): Request<Body> {
    Plain(GET, c.basePath + ".json")
  }

  function DecodeMany(p: Payload): Option<seq<Bin>> {
    if p.Many? then Some(Unwrap(p.bins)) else None
  }

  function DecodeOne(p: Payload): Option<Bin> {
    if p.One? then Some(p.bin) else None
  }

  function Nothing(p: Payload): Option<()> {
    Some(())
  }

  /** `List`: GET `<base>.json`, 200, one bin per envelope entry in order. */
  function List(c: Client): (o: Outcome<Body, seq<Bin>>)
    ensures o.sent == [ListRequest(c)]
    ensures o.result.Success? <==>
      c.server(ListRequest(c)).Reply? && c.server(ListRequest(c)).status == StatusOK && c.server(ListRequest(c)).payload.Many?
    ensures o.result.Success? ==> o.result.value == Unwrap(c.server(ListRequest(c)).payload.bins)
  {
    Call(c.server, ListRequest(c), StatusOK, DecodeMany)
  }

  /** `GetByID`: GET `<base>/<id>.json`, 200, the decoded bin. */
  function GetByID(c: Client, id: int): (o: Outcome<Body, Bin>)
    ensures o.sent == [Plain(GET, ItemPath(c, id))]
    ensures o.result.Success? <==>
      c.server(o.sent[0]).Reply? && c.server(o.sent[0]).status == StatusOK && c.server(o.sent[0]).payload.One?
    ensures o.result.Success? ==> o.result.value == c.server(o.sent[0]).payload.bin
  {
    Call(c.server, Plain(GET, ItemPath(c, id)), StatusOK, DecodeOne)
  }

  function BinName(b: Bin): string {
    b.name
  }

  /** `GetByName`: the first listed bin whose name matches case-insensitively, or "no such bin". */
  function GetByName(c: Client, name: string): (o: Outcome<Body, Bin>)
    ensures o.sent == [ListRequest(c)]
    ensures o.result.Success? ==>
      List(c).result.Success? && var bs := List(c).result.value;
      exists i :: 0 <= i < |bs| && o.result.value == bs[i] && SameFold(bs[i].name, name)
        && forall j :: 0 <= j < i ==> !SameFold(bs[j].name, name)
    ensures List(c).result.Failure? ==> o.result == Failure(List(c).result.error)
    ensures List(c).result.Success? && o.result.Failure? ==>
      o.result.error == NoSuch("bin", name)
      && forall b :: b in List(c).result.value ==> !SameFold(b.name, name)
  {
    Then(List(c), (bs: seq<Bin>) => Pick(bs, BinName, "bin", name))
  }

  /** `Get`: by ID when the argument parses as one, by name otherwise. */
  function Get(c: Client, idOrName: string): (o: Outcome<Body, Bin>)
    ensures c.parseID(idOrName).Some? ==> o == GetByID(c, c.parseID(idOrName).value)
    ensures c.parseID(idOrName).None? ==> o == GetByName(c, idOrName)
    ensures |o.sent| == 1
    ensures o.sent[0] == if c.parseID(idOrName).Some? then Plain(GET, ItemPath(c, c.parseID(idOrName).value)) else ListRequest(c)
  {
    Dispatch(c.parseID, idOrName, (id: int) => GetByID(c, id), (n: string) => GetByName(c, n))
  }

  function DeleteByID(c: Client, id: int): (o: Outcome<Body, ()>)
    ensures o.sent == [Plain(DELETE, ItemPath(c, id))]
    ensures o.result.Success? <==> c.server(o.sent[0]).Reply? && c.server(o.sent[0]).status == StatusOK
  {
    Call(c.server, Plain(DELETE, ItemPath(c, id)), StatusOK, Nothing)
  }

  /** `DeleteByName`: delete exactly the bin the name lookup found; no delete when the lookup fails. */
  function DeleteByName(c: Client, name: string): (o: Outcome<Body, ()>)
    ensures GetByName(c, name).result.Failure? ==>
      o.result == Failure(GetByName(c, name).result.error) && o.sent == [ListRequest(c)]
    ensures GetByName(c, name).result.Success? ==>
      var found := GetByName(c, name).result.value;
      o.result == DeleteByID(c, found.id).result && o.sent == [ListRequest(c), Plain(DELETE, ItemPath(c, found.id))]
  {
    Then(GetByName(c, name), (b: Bin) => DeleteByID(c, b.id))
  }

  /** `Delete`: the DELETE goes to the parsed ID directly, or to the ID the name lookup found. */
  function Delete(c: Client, idOrName: string): (o: Outcome<Body, ()>)
    ensures c.parseID(idOrName).Some? ==> o == DeleteByID(c, c.parseID(idOrName).value)
    ensures c.parseID(idOrName).Some? ==> o.sent == [Plain(DELETE, ItemPath(c, c.parseID(idOrName).value))]
    ensures c.parseID(idOrName).None? ==> o == DeleteByName(c, idOrName)
  {
    Dispatch(c.parseID, idOrName, (id: int) => DeleteByID(c, id), (n: string) => DeleteByName(c, n))
  }

  // ---------------------------------------------------------------- create and update

  /** The request body for a bin: its view wrapped under `ticket_bin`. */
  function BodyOf(b: Bin): (body: Body)
    ensures body.key == "ticket_bin"
    ensures body.view.isDefault == b.isDefault && body.view.name == b.name && body.view.query == b.query
  {
    BinBody(RequestKey, BinView(b.isDefault, b.name, b.query))
  }

  /** `Create` and `Update` send Default, Name and Query and nothing else. */
  lemma BodyFields(b1: Bin, b2: Bin)
    ensures BodyOf(b1) == BodyOf(b2) <==> b1.isDefault == b2.isDefault && b1.name == b2.name && b1.query == b2.query
  {
  }

  /** `Create`: POST the body to `<base>.json`, require 201, decode into the caller's bin and return it. */
  method Create(c: Client, b: Ref<Bin>) returns (o: Outcome<Body, Ref<Bin>>)
    modifies b
    ensures o.sent == [Request(POST, c.basePath + ".json", [], Some(BodyOf(old(b.value))))]
    ensures o.result.Success? <==>
      c.server(o.sent[0]).Reply? && c.server(o.sent[0]).status == StatusCreated && c.server(o.sent[0]).payload.One?
    ensures o.result.Success? ==>
      o.result.value == b && c.server(o.sent[0]).Reply?
      && c.server(o.sent[0]).status == StatusCreated && c.server(o.sent[0]).payload == One(b.value)
    ensures o.result.Failure? ==> b.value == old(b.value)
  {
    var req := Request(POST, c.basePath + ".json", [], Some(BodyOf(b.value)));
    o := CreateInto(c.server, req, DecodeOne, b);
  }

  /** `Update`: PUT the body to `<base>/<id>.json`; only 200 counts as success. */
  function Update(c: Client, b: Bin): (o: Outcome<Body, ()>)
    ensures o.sent == [Request(PUT, ItemPath(c, b.id), [], Some(BodyOf(b)))]
    ensures o.result.Success? <==> c.server(o.sent[0]).Reply? && c.server(o.sent[0]).status == StatusOK
  {
    Call(c.server, Request(PUT, ItemPath(c, b.id), [], Some(BodyOf(b))), StatusOK, Nothing)
  }
}
