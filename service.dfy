/**
 * What the five resource services (tickets, projects, messages, milestones,
 * bins) share: an HTTP round trip seen as an oracle, the status check, the
 * `{"xs":[{"x":{...}}]}` envelopes, the case-insensitive first-match lookup,
 * the `ListAll` pagination loop, and `Create`'s decode into the caller's record.
 */
module Service {
  import opened Wrappers
  import opened Strings

  datatype Verb = GET | POST | PUT | DELETE

  /**
   * One round trip as a service issues it: the verb, the path, the query
   * parameters in the order `url.Values.Encode` writes them (sorted by key),
   * and the JSON body, if any, as the value that gets encoded.
   */
  datatype Request<B> = Request(verb: Verb, path: string, query: seq<(string, string)>, body: Option<B>)

  /** The answer: no response at all (a transport error), or a status code and what the body decodes to. */
  datatype Reply<P> = NoReply | Reply(status: int, payload: P)

  const StatusOK: int := 200
  const StatusCreated: int := 201

  datatype Error =
    | TransportError
    | StatusError(got: int, want: int)      // `lighthouse.CheckResponse`
    | DecodeError                           // the body does not decode to the expected envelope
    | NoSuch(kind: string, name: string)    // "no such project %q" and its siblings
    | InvalidTicketNumber(input: string)    // "invalid ticket number %q"

  /** The result of an operation together with every request it sent, in order. */
  datatype Outcome<B, T> = Outcome(result: Result<T, Error>, sent: seq<Request<B>>)

  /** One `RoundTrip`, then `CheckResponse(resp, want)`, then the decode. */
  function Call<B, P, T>(server: Request<B> -> Reply<P>, req: Request<B>, want: int, decode: P -> Option<T>): (o: Outcome<B, T>)
    ensures o.sent == [req]
    ensures o.result.Success? <==> server(req).Reply? && server(req).status == want && decode(server(req).payload).Some?
    ensures o.result.Success? ==> Some(o.result.value) == decode(server(req).payload)
  {
    var result := match server(req)
      case NoReply => Failure(TransportError)
      case Reply(status, payload) =>
        if status != want then Failure(StatusError(status, want))
        else match decode(payload)
          case None => Failure(DecodeError)
          case Some(v) => Success(v);
    Outcome(result, [req])
  }

  /** Run `k` on the value of `o` when `o` succeeded; the first error stops everything. */
  function Then<B, T, U>(o: Outcome<B, T>, k: T -> Outcome<B, U>): Outcome<B, U> {
    match o.result
    case Failure(e) => Outcome(Failure(e), o.sent)
    case Success(v) => var o2 := k(v); Outcome(o2.result, o.sent + o2.sent)
  }

  /** A request with an empty body and no query. */
  function Plain<B>(verb: Verb, path: string): Request<B> {
    Request(verb, path, [], None)
  }

  /** `lighthouse.ID(idOrName)`: go by ID when the argument parses as one, by name or title otherwise. */
  function Dispatch<B, T>(parseID: string -> Option<int>, arg: string, byID: int -> Outcome<B, T>, byName: string -> Outcome<B, T>): Outcome<B, T> {
    match parseID(arg)
    case Some(id) => byID(id)
    case None => byName(arg)
  }

  /** One entry of a list envelope: `{"x": {...}}`. */
  datatype Wrapped<T> = Wrapped(inner: T)

  /** The flatten helpers (`tickets()`, `projects()`, ...): one record per envelope entry, in order. */
  function Unwrap<T>(env: seq<Wrapped<T>>): (xs: seq<T>)
    ensures |xs| == |env|
    ensures forall i :: 0 <= i < |env| ==> xs[i] == env[i].inner
    decreases |env|
  {
    if env == [] then [] else [env[0].inner] + Unwrap(env[1..])
  }

  /** `strings.ToLower(a) == strings.ToLower(b)`. */
  predicate SameFold(a: string, b: string) {
    ToLower(a) == ToLower(b)
  }

  /** The index of the first record whose key equals `name` case-insensitively. */
  function FindFold<T>(xs: seq<T>, key: T -> string, name: string): (r: Option<nat>)
    ensures r.Some? ==> r.value < |xs| && SameFold(key(xs[r.value]), name)
    ensures r.Some? ==> forall j :: 0 <= j < r.value ==> !SameFold(key(xs[j]), name)
    ensures r.None? <==> forall j :: 0 <= j < |xs| ==> !SameFold(key(xs[j]), name)
    decreases |xs|
  {
    if xs == [] then None
    else if SameFold(key(xs[0]), name) then Some(0)
    else match FindFold(xs[1..], key, name)
      case None => None
      case Some(i) => Some(i + 1)
  }

  /** The loop shared by `GetByName` and `GetByTitle`: the first match in `xs`, or "no such <kind>". */
  function Pick<B, T>(xs: seq<T>, key: T -> string, kind: string, name: string): (o: Outcome<B, T>)
    ensures o.sent == []
    ensures o.result.Success? <==> FindFold(xs, key, name).Some?
    ensures o.result.Success? ==> o.result.value == xs[FindFold(xs, key, name).value]
    ensures o.result.Failure? ==> o.result.error == NoSuch(kind, name)
  {
    match FindFold(xs, key, name)
    case None => Outcome(Failure(NoSuch(kind, name)), [])
    case Some(i) => Outcome(Success(xs[i]), [])
  }

  /** A page that ends `ListAll`: it failed, or it was empty. */
  predicate Ends<B, T>(o: Outcome<B, seq<T>>) {
    o.result.Failure? || o.result.value == []
  }

  /** The first page from `page` on that ends the listing; `stop` is a page known to end it. */
  function FirstEnd<B, T>(fetch: nat -> Outcome<B, seq<T>>, page: nat, stop: nat): (k: nat)
    requires page <= stop && Ends(fetch(stop))
    ensures page <= k <= stop && Ends(fetch(k))
    ensures forall p :: page <= p < k ==> !Ends(fetch(p))
    decreases stop - page
  {
    if Ends(fetch(page)) then page else FirstEnd(fetch, page + 1, stop)
  }

  /** The records of pages `lo` to `hi - 1`, concatenated in page order. */
  function Collect<B, T>(fetch: nat -> Outcome<B, seq<T>>, lo: nat, hi: nat): seq<T>
    requires forall p :: lo <= p < hi ==> fetch(p).result.Success?
    decreases hi - lo
  {
    if hi <= lo then [] else Collect(fetch, lo, hi - 1) + fetch(hi - 1).result.value
  }

  /** The requests of pages `lo` to `hi - 1`, in page order. */
  function SentUpTo<B, T>(fetch: nat -> Outcome<B, seq<T>>, lo: nat, hi: nat): seq<Request<B>>
    decreases hi - lo
  {
    if hi <= lo then [] else SentUpTo(fetch, lo, hi - 1) + fetch(hi - 1).sent
  }

  /**
   * What `ListAll` computes: pages 1, 2, 3, ... are fetched until the first one
   * that fails or is empty; a failure is the result, otherwise the pages before
   * it concatenated in order.
   */
  function AllPages<B, T>(fetch: nat -> Outcome<B, seq<T>>, stop: nat): Outcome<B, seq<T>>
    requires 1 <= stop && Ends(fetch(stop))
  {
    var k := FirstEnd(fetch, 1, stop);
    var sent := SentUpTo(fetch, 1, k + 1);
    match fetch(k).result
    case Failure(e) => Outcome(Failure(e), sent)
    case Success(_) => Outcome(Success(Collect(fetch, 1, k)), sent)
  }

  /**
   * The `ListAll` loop: `fetch(p)` is `List` with the page option set to `p`.
   * The source loops for as long as pages keep coming; `stop` names a page
   * that ends the listing, which the source takes for granted.
   */
  method ListAll<B, T>(fetch: nat -> Outcome<B, seq<T>>, ghost stop: nat) returns (o: Outcome<B, seq<T>>)
    requires 1 <= stop && Ends(fetch(stop))
    ensures o == AllPages(fetch, stop)
  {
    var acc: seq<T> := [];
    var sent: seq<Request<B>> := [];
    var page: nat := 1;
    while true
      invariant 1 <= page <= stop
      invariant forall p :: 1 <= p < page ==> !Ends(fetch(p))
      invariant acc == Collect(fetch, 1, page)
      invariant sent == SentUpTo(fetch, 1, page)
      decreases stop - page
    {
      var p := fetch(page);
      sent := sent + p.sent;
      if p.result.Failure? {
        return Outcome(Failure(p.result.error), sent);
      }
      if |p.result.value| == 0 {
        break;
      }
      acc := acc + p.result.value;
      page := page + 1;
    }
    return Outcome(Success(acc), sent);
  }

  /** When every page sends exactly its own list request, `ListAll` sends the requests for pages 1 to k, in order. */
  lemma {:induction false} SentOnePerPage<B, T>(fetch: nat -> Outcome<B, seq<T>>, req: nat -> Request<B>, lo: nat, hi: nat)
    requires lo <= hi
    requires forall p :: lo <= p < hi ==> fetch(p).sent == [req(p)]
    ensures |SentUpTo(fetch, lo, hi)| == hi - lo
    ensures forall i :: 0 <= i < hi - lo ==> SentUpTo(fetch, lo, hi)[i] == req(lo + i)
    decreases hi - lo
  {
    if lo < hi {
      SentOnePerPage(fetch, req, lo, hi - 1);
    }
  }

  /** A record decoded into the caller's memory: the Go `*T` that `Create` fills in. */
  class Ref<T> {
    var value: T

    constructor (v: T)
      ensures value == v
    {
      value := v;
    }
  }

  /**
   * `Create`'s round trip: send `req`, insist on 201 Created, decode the
   * response into the caller's record and hand that same record back. On any
   * failure the record is left as it was.
   */
  method CreateInto<B, P, T>(server: Request<B> -> Reply<P>, req: Request<B>, decode: P -> Option<T>, target: Ref<T>)
    returns (o: Outcome<B, Ref<T>>)
    modifies target
    ensures o.sent == [req]
    ensures o.result.Success? <==> server(req).Reply? && server(req).status == StatusCreated && decode(server(req).payload).Some?
    ensures o.result.Success? ==> o.result.value == target && Some(target.value) == decode(server(req).payload)
    ensures o.result.Failure? ==> target.value == old(target.value)
  {
    var reply := server(req);
    if reply.NoReply? {
      return Outcome(Failure(TransportError), [req]);
    }
    if reply.status != StatusCreated {
      return Outcome(Failure(StatusError(reply.status, StatusCreated)), [req]);
    }
    var decoded := decode(reply.payload);
    if decoded.None? {
      return Outcome(Failure(DecodeError), [req]);
    }
    target.value := decoded.value;
    return Outcome(Success(target), [req]);
  }
}
