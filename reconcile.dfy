/**
  The reconcile phase of a deploy: given the body of the GET on the recorded
  self link, either create the workload (the body reports status 404) or
  set the first container's image and send the whole body back.
 */
module WorkloadReconcile {
  import opened Json
  import opened RancherApi
  import opened WorkloadSearch

  /** The body reports that the workload does not exist. */
  predicate Is404(m: map<string, Json>) {
    "status" in m && m["status"] == JInt(404)
  }

  /** The workload the create POST sends. */
  function CreateConfig(name: string, image: string, namespace: string): Json {
    JObj(map[
      "containers" := JArr([JObj(map[
        "imagePullPolicy" := JStr("Always"),
        "image" := JStr(image),
        "name" := JStr(name)])]),
      "namespaceId" := JStr(namespace),
      "name" := JStr(name)])
  }

  /** `after` is `before` with only `containers[0].image` set to `image`:
      same keys, every other field, every other container and every other
      key of the first container unchanged. */
  predicate SameExceptFirstImage(before: map<string, Json>, after: map<string, Json>, image: string) {
    && after.Keys == before.Keys
    && (forall k :: k in before && k != "containers" ==> after[k] == before[k])
    && "containers" in before
    && before["containers"].JArr? && after["containers"].JArr?
    && var cs, cs' := before["containers"].items, after["containers"].items;
       && |cs'| == |cs| > 0
       && (forall i :: 1 <= i < |cs| ==> cs'[i] == cs[i])
       && cs[0].JObj? && cs'[0].JObj?
       && cs'[0].fields.Keys == cs[0].fields.Keys + {"image"}
       && cs'[0].fields["image"] == JStr(image)
       && forall k :: k in cs[0].fields && k != "image" ==> cs'[0].fields[k] == cs[0].fields[k]
  }

  /** Create on a 404 body, update when the first container can be given the
      new image, fatal otherwise. `rec` is what the search recorded. */
  function Reconcile(detail: Detail, rec: Record, name: string, image: string): (o: Outcome)
    ensures o.Create? <==> detail.DetailObject? && Is404(detail.fields)
    ensures o.Create? ==> o.url == rec.workloadUrlApi && o.config == CreateConfig(name, image, rec.namespace)
    ensures o == Fatal(MissingContainers) <==>
      && detail.DetailObject? && !Is404(detail.fields)
      && ("containers" !in detail.fields || !Truthy(detail.fields["containers"]))
    ensures o.Update? <==>
      && detail.DetailObject? && !Is404(detail.fields)
      && "containers" in detail.fields && detail.fields["containers"].JArr?
      && |detail.fields["containers"].items| > 0 && detail.fields["containers"].items[0].JObj?
    ensures o.Update? ==>
      && o.url == rec.deploymentPath + "?action=redeploy"
      && o.body.JObj? && SameExceptFirstImage(detail.fields, o.body.fields, image)
    ensures o.Fatal? ==> o.reason in {MissingContainers, Exception}
  {
    match detail
    case DetailUnparsable => Fatal(Exception)
    case DetailObject(m) =>
      if Is404(m) then Create(rec.workloadUrlApi, CreateConfig(name, image, rec.namespace))
      else if "containers" !in m || !Truthy(m["containers"]) then Fatal(MissingContainers)
      else
        match m["containers"]
        case JArr(cs) =>
          (match cs[0]
           case JObj(c) =>
             var first := JObj(c["image" := JStr(image)]);
             Update(rec.deploymentPath + "?action=redeploy", JObj(m["containers" := JArr(cs[0 := first])]))
           case _ => Fatal(Exception))
        case _ => Fatal(Exception)
  }
}
