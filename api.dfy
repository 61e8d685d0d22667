/**
  The Rancher REST responses the deploy script reads, taken as input values
  instead of HTTP calls, and the outcome of one deploy: the request it ends
  with, or the fatal condition that stops it, together with the process exit
  code.
 */
module RancherApi {
  import opened Json

  datatype Option<T> = None | Some(value: T)

  /** The parsed body of a collection GET: a JSON object with the `data`
      list (`Data`), a JSON object without a `data` key (`NoData`), or
      anything else (`Unparsable`): text that is not JSON, and also JSON that
      is not an object (a list, string, number or null). On such a value
      the source raises at line 51, 52 or 56 (projects listing) or at line
      70, 71 or 74 (workload listing), depending on the value: the `'data'
      in` test raises on a number or null, `.keys()` on a list or string
      without "data", and the `['data']` subscript on a list or string that
      contains "data". Every `Unparsable` body that is read ends the deploy
      with an exception. */
  datatype Body<T> = Unparsable | NoData | Data(items: seq<T>)

  /** One collection response: HTTP status and parsed body. */
  datatype Listing<T> = Listing(status: int, body: Body<T>)

  /** An entry of a project's workload collection. A key that is absent from
      the JSON entry is None; so is `selfLink` when `links` is absent or is
      not an object, and `name` when the entry itself is not an object. */
  datatype Workload = Workload(name: Option<string>, selfLink: Option<string>, namespaceId: Option<string>)

  /** An entry of the project collection, bundled with the response that the
      GET on its workloads collection returns. `id` is None when the key is
      absent or the entry is not an object. */
  datatype Project = Project(id: Option<string>, workloads: Listing<Workload>)

  /** The body of the GET on a workload's self link. */
  datatype Detail = DetailUnparsable | DetailObject(fields: map<string, Json>)

  /** Why a deploy stops with exit status 1. `Exception` stands for any
      exception that the handler around the whole deploy turns into exit 1
      (a missing key, a body that is not JSON, an item assignment on a
      value that is not a dict). */
  datatype Reason =
    | ProjectsStatusNot200
    | ProjectsMissingData
    | ServiceNotFound
    | MissingContainers
    | Exception

  /** How a deploy ends: fatally, or after issuing one POST (create) or one
      PUT (update). The status of that POST or PUT is never examined. */
  datatype Outcome =
    | Fatal(reason: Reason)
    | Create(url: string, config: Json)
    | Update(url: string, body: Json)

  /** Every deploy ends the process; this is the status it exits with. */
  function ExitCode(o: Outcome): int {
    if o.Fatal? then 1 else 0
  }
}
