/**
  The `DeployRancher` object and the script around it. `DeploySpec` is what
  one `deploy` call does, as a function of the responses it reads; the class
  method `Deploy` runs the search loops over its own fields and is proved
  equal to it.
 */
module DeployToRancher {
  import opened Json
  import opened RancherApi
  import opened WorkloadSearch
  import opened WorkloadReconcile

  /** One `deploy` call on an object whose three search fields hold `start`. */
  function DeploySpec(base: string, name: string, image: string, projects: Listing<Project>,
                      detail: Detail, start: Record): (o: Outcome)
    ensures projects.status != 200 ==> o == Fatal(ProjectsStatusNot200)
    ensures projects.status == 200 && projects.body.NoData? ==> o == Fatal(ProjectsMissingData)
    ensures !o.Fatal? ==> projects.status == 200 && projects.body.Data?
    ensures ExitCode(o) == 0 <==> o.Create? || o.Update?
  {
    if projects.status != 200 then Fatal(ProjectsStatusNot200)
    else
      match projects.body
      case Unparsable => Fatal(Exception)
      case NoData => Fatal(ProjectsMissingData)
      case Data(ps) =>
        match Search(ps, base, name, start)
        case Crashed => Fatal(Exception)
        case Reached(rec) =>
          if rec.deploymentPath == "" then Fatal(ServiceNotFound)
          else Reconcile(detail, rec, name, image)
  }

  class DeployRancher {
    const accessKey: string
    const secretKey: string
    const urlApi: string
    const serviceName: string
    const dockerImage: string
    var deploymentPath: string
    var namespace: string
    var workloadUrlApi: string

    /** The three search fields, as one record. */
    function Fields(): Record
      reads this
    {
      Record(workloadUrlApi, deploymentPath, namespace)
    }

    constructor (accessKey: string, secretKey: string, urlApi: string, serviceName: string, dockerImage: string)
      ensures this.accessKey == accessKey && this.secretKey == secretKey && this.urlApi == urlApi
      ensures this.serviceName == serviceName && this.dockerImage == dockerImage
      ensures Fields() == INITIAL
    {
      this.accessKey := accessKey;
      this.secretKey := secretKey;
      this.urlApi := urlApi;
      this.serviceName := serviceName;
      this.dockerImage := dockerImage;
      deploymentPath := "";
      namespace := "";
      workloadUrlApi := "";
    }

    /** Search the projects for the service, then create or update it. The
        result is the request the call ends with, or why it exits 1; when the
        search completes, the fields hold what it recorded. */
    method Deploy(projects: Listing<Project>, detail: Detail) returns (o: Outcome)
      modifies this
      ensures o == DeploySpec(urlApi, serviceName, dockerImage, projects, detail, old(Fields()))
      ensures projects.status == 200 && projects.body.Data?
              && Search(projects.body.items, urlApi, serviceName, old(Fields())).Reached?
              ==> Fields() == Search(projects.body.items, urlApi, serviceName, old(Fields())).rec
      ensures !(projects.status == 200 && projects.body.Data?) ==> Fields() == old(Fields())
    {
      if projects.status != 200 {
        return Fatal(ProjectsStatusNot200);
      }
      match projects.body {
        case Unparsable =>
          return Fatal(Exception);
        case NoData =>
          return Fatal(ProjectsMissingData);
        case Data(ps) =>
          ghost var start := Fields();
          var i := 0;
          while i < |ps|
            invariant 0 <= i <= |ps|
            invariant Search(ps, urlApi, serviceName, start) == Search(ps[i..], urlApi, serviceName, Fields())
          {
            var p := ps[i];
            assert ps[i..][0] == p && ps[i..][1..] == ps[i + 1..];
            if p.id.None? {
              return Fatal(Exception);
            }
            var wUrl := WorkloadsUrl(urlApi, p.id.value);
            if p.workloads.status != 200 {
              i := i + 1;
              continue;
            }
            match p.workloads.body {
              case Unparsable =>
                return Fatal(Exception);
              case NoData =>
                i := i + 1;
                continue;
              case Data(ws) =>
                var found := FirstNamed(ws, serviceName);
                match found {
                  case ScanCrash =>
                    return Fatal(Exception);
                  case NoMatch =>
                  case Match(k) =>
                    var w := ws[k];
                    workloadUrlApi := wUrl;
                    if w.selfLink.None? {
                      return Fatal(Exception);
                    }
                    deploymentPath := w.selfLink.value;
                    if w.namespaceId.None? {
                      return Fatal(Exception);
                    }
                    namespace := w.namespaceId.value;
                }
            }
            if deploymentPath != "" {
              assert Search(ps, urlApi, serviceName, start) == Reached(Fields());
              break;
            }
            i := i + 1;
          }
          assert Search(ps, urlApi, serviceName, start) == Reached(Fields());
          if deploymentPath == "" {
            return Fatal(ServiceNotFound);
          }
          return Reconcile(detail, Fields(), serviceName, dockerImage);
      }
    }
  }

  /** `deploy_in_rancher`: a fresh object, one deploy. */
  method DeployInRancher(accessKey: string, secretKey: string, urlApi: string, serviceName: string,
                         dockerImage: string, projects: Listing<Project>, detail: Detail) returns (o: Outcome)
    ensures o == DeploySpec(urlApi, serviceName, dockerImage, projects, detail, INITIAL)
  {
    var deployment := new DeployRancher(accessKey, secretKey, urlApi, serviceName, dockerImage);
    o := deployment.Deploy(projects, detail);
  }

  /** The environment variables the script reads with `os.environ[...]`, in
      order; every one of them is required. */
  const REQUIRED_VARIABLES := ["RANCHER_ACCESS_KEY", "RANCHER_SECRET_KEY", "RANCHER_URL_API",
                               "SERVICE_NAME", "DOCKER_IMAGE", "DOCKER_IMAGE_LATEST"]

  predicate HasRequired(env: map<string, string>) {
    forall v :: v in REQUIRED_VARIABLES ==> v in env
  }

  /** The script's entry point. Returns the process exit status and the
      images for which a deploy was started. A missing variable raises
      before any deploy (exit 1). Otherwise the first deploy ends the
      process: `sys.exit` raises SystemExit, which `except Exception` does
      not catch, so the deploy of DOCKER_IMAGE_LATEST is never started,
      whatever its value. */
  method RunScript(env: map<string, string>, projects: Listing<Project>, detail: Detail)
    returns (exitCode: int, started: seq<string>)
    ensures !HasRequired(env) ==> exitCode == 1 && started == []
    ensures HasRequired(env) ==> started == [env["DOCKER_IMAGE"]]
    ensures HasRequired(env) ==>
      exitCode == ExitCode(DeploySpec(env["RANCHER_URL_API"], env["SERVICE_NAME"], env["DOCKER_IMAGE"],
                                      projects, detail, INITIAL))
  {
    if !HasRequired(env) {
      // the first missing variable raises KeyError outside any handler
      return 1, [];
    }
    assert forall j :: 0 <= j < |REQUIRED_VARIABLES| ==> REQUIRED_VARIABLES[j] in env;
    var o := DeployInRancher(env["RANCHER_ACCESS_KEY"], env["RANCHER_SECRET_KEY"], env["RANCHER_URL_API"],
                             env["SERVICE_NAME"], env["DOCKER_IMAGE"], projects, detail);
    return ExitCode(o), [env["DOCKER_IMAGE"]];
  }

  /** The same script, as a concrete run: the latest tag is set, yet only
      one deploy is started. */
  method LatestTagNeverStarted(projects: Listing<Project>, detail: Detail)
  {
    var env := map["RANCHER_ACCESS_KEY" := "key", "RANCHER_SECRET_KEY" := "secret",
                   "RANCHER_URL_API" := "https://rancher/v3", "SERVICE_NAME" := "web",
                   "DOCKER_IMAGE" := "app:v2", "DOCKER_IMAGE_LATEST" := "app:latest"];
    assert HasRequired(env);
    var exitCode, started := RunScript(env, projects, detail);
    assert started == ["app:v2"];
    assert "app:latest" !in started;
  }

  /** The script as its line 160 intends it: a deploy that completes returns
      instead of ending the process, so a non-empty DOCKER_IMAGE_LATEST gets a
      second deploy, with the same service and a fresh search (`second`
      holds the responses that deploy reads). A fatal deploy still ends the
      process with status 1. */
  method RunScriptBothTags(env: map<string, string>, first: Listing<Project>, firstDetail: Detail,
                           second: Listing<Project>, secondDetail: Detail)
    returns (exitCode: int, started: seq<string>)
    ensures !HasRequired(env) ==> exitCode == 1 && started == []
    ensures HasRequired(env) ==>
      var o := DeploySpec(env["RANCHER_URL_API"], env["SERVICE_NAME"], env["DOCKER_IMAGE"], first, firstDetail, INITIAL);
      && started == (if o.Fatal? || env["DOCKER_IMAGE_LATEST"] == "" then [env["DOCKER_IMAGE"]]
                     else [env["DOCKER_IMAGE"], env["DOCKER_IMAGE_LATEST"]])
      && (exitCode == 0 <==>
            && !o.Fatal?
            && (env["DOCKER_IMAGE_LATEST"] != "" ==>
                  !DeploySpec(env["RANCHER_URL_API"], env["SERVICE_NAME"], env["DOCKER_IMAGE_LATEST"],
                              second, secondDetail, INITIAL).Fatal?))
  {
    if !HasRequired(env) {
      return 1, [];
    }
    assert forall j :: 0 <= j < |REQUIRED_VARIABLES| ==> REQUIRED_VARIABLES[j] in env;
    var o := DeployInRancher(env["RANCHER_ACCESS_KEY"], env["RANCHER_SECRET_KEY"], env["RANCHER_URL_API"],
                             env["SERVICE_NAME"], env["DOCKER_IMAGE"], first, firstDetail);
    started := [env["DOCKER_IMAGE"]];
    if o.Fatal? {
      return 1, started;
    }
    var latest := env["DOCKER_IMAGE_LATEST"];
    if latest != "" {
      o := DeployInRancher(env["RANCHER_ACCESS_KEY"], env["RANCHER_SECRET_KEY"], env["RANCHER_URL_API"],
                           env["SERVICE_NAME"], latest, second, secondDetail);
      started := started + [latest];
    }
    exitCode := ExitCode(o);
  }

  // ---------------------------------------------------------------------
  // Properties of one deploy started from a fresh object.

  /** The outcome is decided by the first hit in project order: create or
      update that workload, whatever the later projects hold. */
  lemma {:induction false} DeployActsOnFirstHit(base: string, name: string, image: string, ps: seq<Project>, i: nat, detail: Detail)
    requires i < |ps| && Hit(ps[i], name)
    requires forall j :: 0 <= j < i ==> PassesOver(ps[j], name)
    ensures DeploySpec(base, name, image, Listing(200, Data(ps)), detail, INITIAL)
         == Reconcile(detail, HitRecord(ps[i], base, name), name, image)
  {
    FirstHitIsRecorded(ps, i, base, name, INITIAL);
  }

  /** No workload of the service's name in any readable project: exit 1,
      with neither a create nor an update. */
  lemma {:induction false} DeployNotFoundIsFatal(base: string, name: string, image: string, ps: seq<Project>, detail: Detail)
    requires forall j :: 0 <= j < |ps| ==> PassesOver(ps[j], name)
    ensures DeploySpec(base, name, image, Listing(200, Data(ps)), detail, INITIAL) == Fatal(ServiceNotFound)
  {
    NotFoundIffAllPassOver(ps, base, name, INITIAL);
  }

  /** A create or an update is issued only for the first hit: a create goes
      to that project's workload collection, an update to that workload's
      self link with the redeploy action. */
  lemma {:induction false} DeployWritesOnlyToFirstHit(base: string, name: string, image: string, projects: Listing<Project>, detail: Detail)
    requires !DeploySpec(base, name, image, projects, detail, INITIAL).Fatal?
    ensures projects.status == 200 && projects.body.Data?
    ensures exists i :: && 0 <= i < |projects.body.items| && Hit(projects.body.items[i], name)
                        && (forall j :: 0 <= j < i ==> PassesOver(projects.body.items[j], name))
                        && var o := DeploySpec(base, name, image, projects, detail, INITIAL);
                           && (o.Create? ==> o.url == WorkloadsUrl(base, projects.body.items[i].id.value))
                           && (o.Update? ==> o.url == HitRecord(projects.body.items[i], base, name).deploymentPath + "?action=redeploy")
  {
    RecordedIsFirstHit(projects.body.items, base, name, INITIAL);
  }
}
