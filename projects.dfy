/**
 * The project service: listing, lookup by ID or by name, deletion,
 * memberships, the narrow create/update view, and the `StatesList` codec
 * that carries a list of state names as one comma-joined JSON string.
 */
module Projects {
  import opened Wrappers
  import opened Strings
  import opened Decimal
  import Json
  import opened Service

  /** The fields of a project the model keeps; `Create` and `Update` read three of them. */
  datatype Project = Project(
    id: int,
    name: string,
    archived: bool,
    public: bool,
    description: string,
    permalink: string,
    openStates: string,
    closedStates: string,
    openStatesList: seq<string>,
    closedStatesList: seq<string>)

  datatype Membership = Membership(id: int, userID: int, account: string)

  /** `ProjectCreate` and `ProjectUpdate`, which have the same three fields. */
  datatype ProjectView = ProjectView(archived: bool, name: string, public: bool)

  /** What a project request carries: `{"project": <view>}`. */
  datatype Body = ProjectBody(view: ProjectView)

  datatype Payload =
    | Garbled
    | One(project: Project)
    | Many(projects: seq<Wrapped<Project>>)
    | Members(memberships: seq<Wrapped<Membership>>)

  /** A project service: base path, server, and `lighthouse.ID`, which is not part of this model. */
  datatype Client = Client(basePath: string, server: Request<Body> -> Reply<Payload>, parseID: string -> Option<int>)

  function NewService(root: string, server: Request<Body> -> Reply<Payload>, parseID: string -> Option<int>): (c: Client)
    ensures c.basePath == root + "/projects"
  {
    Client(root + "/projects", server, parseID)
  }

  // ---------------------------------------------------------------- StatesList

  /** `StatesList.MarshalJSON`: the states joined by commas, as one JSON string. */
  function EncodeStates(states: seq<string>): (v: Json.Value)
    ensures v.String? && v.s == Join(states, ",")
  {
    Json.String(Join(states, ","))
  }

  predicate IsComma(c: char) {
    c == ','
  }

  /**
   * `StatesList.UnmarshalJSON` as a function of the input and the prior list:
   * the new list and the error. A JSON string is split on commas with empty
   * fields dropped; `null` decodes as the empty string, so as the empty list.
   */
  function DecodeStates(data: Json.Input, prior: seq<string>): (seq<string>, Option<Json.DecodeError>) {
    match data
    case Nil => (prior, None)
    case Malformed => (prior, Some(Json.SyntaxError))
    case Text(Null) => (FieldsBy("", IsComma), None)
    case Text(String(s)) => (FieldsBy(s, IsComma), None)
    case Text(_) => (prior, Some(Json.TypeError))
  }

  /** The state-name list of a project, updated in place by `UnmarshalJSON`. */
  class StatesList {
    var states: seq<string>

    constructor (states: seq<string>)
      ensures this.states == states
    {
      this.states := states;
    }

    method UnmarshalJSON(data: Json.Input) returns (err: Option<Json.DecodeError>)
      modifies this
      ensures (states, err) == DecodeStates(data, old(states))
    {
      if data.Nil? {
        return None;
      }
      var s := "";
      if data.Malformed? {
        return Some(Json.SyntaxError);
      }
      match data.v {
        case Null =>
        case String(text) => s := text;
        case _ => return Some(Json.TypeError);
      }
      states := FieldsBy(s, IsComma);
      return None;
    }

    function MarshalJSON(): Json.Value
      reads this
    {
      EncodeStates(states)
    }
  }

  /** A decoded list never holds an empty or comma-carrying name; a non-string is refused and leaves the list alone. */
  lemma DecodeStatesShape(data: Json.Input, prior: seq<string>)
    ensures var (states, err) := DecodeStates(data, prior);
      (err.None? && !data.Nil? ==>
        (forall k :: 0 <= k < |states| ==> states[k] != [])
        && (forall k, i :: 0 <= k < |states| && 0 <= i < |states[k]| ==> states[k][i] != ','))
      && (err.Some? <==> data.Malformed? || (data.Text? && !data.v.String? && !data.v.Null?))
      && (err.Some? || data.Nil? ==> states == prior)
  {
    match data
    case Text(String(s)) => FieldsShape(s, IsComma);
    case _ =>
  }

  /** Decoding an encoded list gives it back when every name is non-empty and comma-free. */
  lemma StatesRoundTrip(states: seq<string>, prior: seq<string>)
    requires forall k :: 0 <= k < |states| ==> states[k] != []
    requires forall k, i :: 0 <= k < |states| && 0 <= i < |states[k]| ==> states[k][i] != ','
    ensures DecodeStates(Json.Text(EncodeStates(states)), prior) == (states, None)
  {
    if states == [] {
      assert SplitBy("", IsComma) == [""];
    } else {
      SplitJoin(states, ',', IsComma);
      NonEmptyKeepsAll(states);
    }
  }

  // ---------------------------------------------------------------- requests

  function ItemPath(c: Client, id: int): string {
    c.basePath + "/" + Itoa(id) + ".json"
  }

  function ListRequest(c: Client): Request<Body> {
    Plain(GET, c.basePath + ".json")
  }

  function DecodeMany(p: Payload): Option<seq<Project>> {
    if p.Many? then Some(Unwrap(p.projects)) else None
  }

  function DecodeOne(p: Payload): Option<Project> {
    if p.One? then Some(p.project) else None
  }

  function DecodeMembers(p: Payload): Option<seq<Membership>> {
    if p.Members? then Some(Unwrap(p.memberships)) else None
  }

  function Nothing(p: Payload): Option<()> {
    Some(())
  }

  /** `List`: GET `<base>.json`, 200, one project per envelope entry in order. */
  function List(c: Client): (o: Outcome<Body, seq<Project>>)
    ensures o.sent == [ListRequest(c)]
    ensures o.result.Success? <==>
      c.server(ListRequest(c)).Reply? && c.server(ListRequest(c)).status == StatusOK && c.server(ListRequest(c)).payload.Many?
    ensures o.result.Success? ==> o.result.value == Unwrap(c.server(ListRequest(c)).payload.projects)
  {
    Call(c.server, ListRequest(c), StatusOK, DecodeMany)
  }

  /** `GetByID`: GET `<base>/<id>.json`, 200, the decoded project. */
  function GetByID(c: Client, id: int): (o: Outcome<Body, Project>)
    ensures o.sent == [Plain(GET, ItemPath(c, id))]
    ensures o.result.Success? <==>
      c.server(o.sent[0]).Reply? && c.server(o.sent[0]).status == StatusOK && c.server(o.sent[0]).payload.One?
    ensures o.result.Success? ==> o.result.value == c.server(o.sent[0]).payload.project
  {
    Call(c.server, Plain(GET, ItemPath(c, id)), StatusOK, DecodeOne)
  }

  function ProjectName(p: Project): string {
    p.name
  }

  /** `GetByName`: the first listed project whose name matches case-insensitively, or "no such project". */
  function GetByName(c: Client, name: string): (o: Outcome<Body, Project>)
    ensures o.sent == [ListRequest(c)]
    ensures o.result.Success? ==>
      List(c).result.Success? && var ps := List(c).result.value;
      exists i :: 0 <= i < |ps| && o.result.value == ps[i] && SameFold(ps[i].name, name)
        && forall j :: 0 <= j < i ==> !SameFold(ps[j].name, name)
    ensures List(c).result.Failure? ==> o.result == Failure(List(c).result.error)
    ensures List(c).result.Success? && o.result.Failure? ==>
      o.result.error == NoSuch("project", name)
      && forall p :: p in List(c).result.value ==> !SameFold(p.name, name)
  {
    Then(List(c), (ps: seq<Project>) => Pick(ps, ProjectName, "project", name))
  }

  /** `Get`: by ID when the argument parses as one, by name otherwise. */
  function Get(c: Client, idOrName: string): (o: Outcome<Body, Project>)
    ensures c.parseID(idOrName).Some? ==> o == GetByID(c, c.parseID(idOrName).value)
    ensures c.parseID(idOrName).None? ==> o == GetByName(c, idOrName)
    ensures |o.sent| == 1
    ensures o.sent[0] == if c.parseID(idOrName).Some? then Plain(GET, ItemPath(c, c.parseID(idOrName).value)) else ListRequest(c)
  {
    Dispatch(c.parseID, idOrName, (id: int) => GetByID(c, id), (n: string) => GetByName(c, n))
  }

  function DeleteByID(c: Client, id: int): (o: Outcome<Body, ()>)
    ensures o.sent == [Plain(DELETE, ItemPath(c, id))]
    ensures o.result.Success? <==> c.server(o.sent[0]).Reply? && c.server(o.sent[0]).status == StatusOK
  {
    Call(c.server, Plain(DELETE, ItemPath(c, id)), StatusOK, Nothing)
  }

  /** `DeleteByName`: delete exactly the project the name lookup found; no delete when the lookup fails. */
  function DeleteByName(c: Client, name: string): (o: Outcome<Body, ()>)
    ensures GetByName(c, name).result.Failure? ==>
      o.result == Failure(GetByName(c, name).result.error) && o.sent == [ListRequest(c)]
    ensures GetByName(c, name).result.Success? ==>
      var found := GetByName(c, name).result.value;
      o.result == DeleteByID(c, found.id).result && o.sent == [ListRequest(c), Plain(DELETE, ItemPath(c, found.id))]
  {
    Then(GetByName(c, name), (p: Project) => DeleteByID(c, p.id))
  }

  /** `Delete`: the DELETE goes to the parsed ID directly, or to the ID the name lookup found. */
  function Delete(c: Client, idOrName: string): (o: Outcome<Body, ()>)
    ensures c.parseID(idOrName).Some? ==> o == DeleteByID(c, c.parseID(idOrName).value)
    ensures c.parseID(idOrName).Some? ==> o.sent == [Plain(DELETE, ItemPath(c, c.parseID(idOrName).value))]
    ensures c.parseID(idOrName).None? ==> o == DeleteByName(c, idOrName)
  {
    Dispatch(c.parseID, idOrName, (id: int) => DeleteByID(c, id), (n: string) => DeleteByName(c, n))
  }

  function MembershipsPath(c: Client, id: int): string {
    c.basePath + "/" + Itoa(id) + "/memberships.json"
  }

  /** `MembershipsByID`: GET `<base>/<id>/memberships.json`, 200, memberships in envelope order. */
  function MembershipsByID(c: Client, id: int): (o: Outcome<Body, seq<Membership>>)
    ensures o.sent == [Plain(GET, MembershipsPath(c, id))]
    ensures o.result.Success? <==>
      c.server(o.sent[0]).Reply? && c.server(o.sent[0]).status == StatusOK && c.server(o.sent[0]).payload.Members?
    ensures o.result.Success? ==> o.result.value == Unwrap(c.server(o.sent[0]).payload.memberships)
  {
    Call(c.server, Plain(GET, MembershipsPath(c, id)), StatusOK, DecodeMembers)
  }

  /** `MembershipsByName`: the memberships of exactly the project the name lookup found; the lookup's error otherwise. */
  function MembershipsByName(c: Client, name: string): (o: Outcome<Body, seq<Membership>>)
    ensures GetByName(c, name).result.Failure? ==>
      o.result == Failure(GetByName(c, name).result.error) && o.sent == [ListRequest(c)]
    ensures GetByName(c, name).result.Success? ==>
      var found := GetByName(c, name).result.value;
      o.result == MembershipsByID(c, found.id).result && o.sent == [ListRequest(c), Plain(GET, MembershipsPath(c, found.id))]
  {
    Then(GetByName(c, name), (p: Project) => MembershipsByID(c, p.id))
  }

  /** `Memberships`: by ID when the argument parses as one, through the name lookup otherwise. */
  function Memberships(c: Client, idOrName: string): (o: Outcome<Body, seq<Membership>>)
    ensures c.parseID(idOrName).Some? ==> o == MembershipsByID(c, c.parseID(idOrName).value)
    ensures c.parseID(idOrName).None? ==> o == MembershipsByName(c, idOrName)
    ensures c.parseID(idOrName).Some? ==> o.sent == [Plain(GET, MembershipsPath(c, c.parseID(idOrName).value))]
    ensures c.parseID(idOrName).None? ==> |o.sent| >= 1 && o.sent[0] == ListRequest(c)
  {
    Dispatch(c.parseID, idOrName, (id: int) => MembershipsByID(c, id), (n: string) => MembershipsByName(c, n))
  }

  // ---------------------------------------------------------------- create and update

  function View(p: Project): ProjectView {
    ProjectView(p.archived, p.name, p.public)
  }

  /** `Create` and `Update` send Archived, Name and Public and nothing else. */
  lemma ViewFields(p1: Project, p2: Project)
    ensures View(p1) == View(p2) <==> p1.archived == p2.archived && p1.name == p2.name && p1.public == p2.public
  {
  }

  /** `Create`: POST the view to `<base>.json`, require 201, decode into the caller's project and return it. */
  method Create(c: Client, p: Ref<Project>) returns (o: Outcome<Body, Ref<Project>>)
    modifies p
    ensures o.sent == [Request(POST, c.basePath + ".json", [], Some(ProjectBody(View(old(p.value)))))]
    ensures o.result.Success? <==>
      c.server(o.sent[0]).Reply? && c.server(o.sent[0]).status == StatusCreated && c.server(o.sent[0]).payload.One?
    ensures o.result.Success? ==>
      o.result.value == p && c.server(o.sent[0]).Reply?
      && c.server(o.sent[0]).status == StatusCreated && c.server(o.sent[0]).payload == One(p.value)
    ensures o.result.Failure? ==> p.value == old(p.value)
  {
    var req := Request(POST, c.basePath + ".json", [], Some(ProjectBody(View(p.value))));
    o := CreateInto(c.server, req, DecodeOne, p);
  }

  /** `Update`: PUT the view to `<base>/<id>.json`; only 200 counts as success. */
  function Update(c: Client, p: Project): (o: Outcome<Body, ()>)
    ensures o.sent == [Request(PUT, ItemPath(c, p.id), [], Some(ProjectBody(View(p))))]
    ensures o.result.Success? <==> c.server(o.sent[0]).Reply? && c.server(o.sent[0]).status == StatusOK
  {
    Call(c.server, Request(PUT, ItemPath(c, p.id), [], Some(ProjectBody(View(p)))), StatusOK, Nothing)
  }
}
