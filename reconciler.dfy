/**
 * One reconcile of one Website: fetch it, create-or-update its ConfigMap,
 * Deployment and Service in that order, re-read the Deployment and write the
 * status back. `Reconciled` is the specification; `WebsiteReconciler.Reconcile`
 * performs the same steps against a mutable store.
 */
module Reconciler {
  import opened Wrappers
  import opened Meta
  import opened WebsiteTypes
  import opened Resources
  import opened Desired
  import opened Store

  /** What the reconcile returns: an empty result, a requeue request, or an error. */
  datatype Outcome = Done | Requeue | Failed(error: ApiError)

  /** The error, if any, that each API call of one reconcile meets, in call order. */
  datatype Faults = Faults(
    getSite: Option<ApiError>,
    applyConfigMap: Option<ApiError>,
    applyDeployment: Option<ApiError>,
    applyService: Option<ApiError>,
    getDeployment: Option<ApiError>,
    updateStatus: Option<ApiError>)

  const NoFaults: Faults := Faults(None, None, None, None, None, None)

  /** Create-or-update of the site's ConfigMap. */
  function ApplyConfigMap(m: map<ObjectKey, ConfigMap>, site: Website, fault: Option<ApiError>): (r: Applied<ConfigMap>)
    ensures fault.Some? ==> r == Applied(m, Failure(fault.value))
    ensures fault.None? ==> r.result.Success? && r.store.Keys == m.Keys + {CmKey(site)}
    ensures fault.None? ==> forall k :: k in m && k != CmKey(site) ==> r.store[k] == m[k]
    ensures fault.None? ==>
      var cm := r.store[CmKey(site)];
      && KeyOf(cm.meta) == (if CmKey(site) in m then KeyOf(m[CmKey(site)].meta) else CmKey(site))
      && cm.meta.controller == Some(KeyOf(site.meta))
      && cm.data.Some? && IndexKey in cm.data.value && cm.data.value[IndexKey] == site.spec.indexHTML
    ensures fault.None? && CmKey(site) !in m ==>
      var cm := r.store[CmKey(site)];
      cm.meta.labels == Labels(site.meta.name) && cm.data.value.Keys == {IndexKey}
    ensures fault.None? && CmKey(site) in m ==>
      var old_cm, cm := m[CmKey(site)], r.store[CmKey(site)];
      && cm.meta.labels == old_cm.meta.labels
      && cm.data.value.Keys == DataKeys(old_cm) + {IndexKey}
      && (forall k :: k in DataKeys(old_cm) && k != IndexKey ==> cm.data.value[k] == old_cm.data.value[k])
  {
    var key := CmKey(site);
    Persist(m, key, MutateConfigMap(Existing(m, key, InitialConfigMap(site)), site), fault)
  }

  /** Create-or-update of the site's Deployment. */
  function ApplyDeployment(m: map<ObjectKey, Deployment>, site: Website, fault: Option<ApiError>): (r: Applied<Deployment>)
    ensures fault.Some? ==> r == Applied(m, Failure(fault.value))
    ensures fault.None? ==> r.result.Success? && r.store.Keys == m.Keys + {DeployKey(site)}
    ensures fault.None? ==> forall k :: k in m && k != DeployKey(site) ==> r.store[k] == m[k]
    ensures fault.None? ==>
      var d := r.store[DeployKey(site)];
      && KeyOf(d.meta) == (if DeployKey(site) in m then KeyOf(m[DeployKey(site)].meta) else DeployKey(site))
      && d.meta.controller == Some(KeyOf(site.meta))
      && d.spec.replicas == Some(DesiredReplicas(site.spec))
      && d.spec.template.labels == Labels(site.meta.name)
      && SelectorMatchesTemplate(d)
      && ServesConfigMap(d.spec.template, CmName(site.meta.name))
      && d.spec.template.containers[0].image == DesiredImage(site.spec)
    ensures fault.None? && DeployKey(site) !in m ==>
      var d := r.store[DeployKey(site)];
      d.meta.labels == Labels(site.meta.name) && d.status == DeploymentStatus(0)
    ensures fault.None? && DeployKey(site) in m ==>
      var old_d, d := m[DeployKey(site)], r.store[DeployKey(site)];
      && d.meta.labels == old_d.meta.labels
      && d.status == old_d.status
      && d.spec.strategy == old_d.spec.strategy
      && d.spec.template.annotations == old_d.spec.template.annotations
  {
    var key := DeployKey(site);
    Persist(m, key, MutateDeployment(Existing(m, key, InitialDeployment(site)), site), fault)
  }

  /** Create-or-update of the site's Service. */
  function ApplyService(m: map<ObjectKey, Service>, site: Website, fault: Option<ApiError>): (r: Applied<Service>)
    ensures fault.Some? ==> r == Applied(m, Failure(fault.value))
    ensures fault.None? ==> r.result.Success? && r.store.Keys == m.Keys + {SvcKey(site)}
    ensures fault.None? ==> forall k :: k in m && k != SvcKey(site) ==> r.store[k] == m[k]
    ensures fault.None? ==>
      var svc := r.store[SvcKey(site)];
      && KeyOf(svc.meta) == (if SvcKey(site) in m then KeyOf(m[SvcKey(site)].meta) else SvcKey(site))
      && svc.meta.controller == Some(KeyOf(site.meta))
      && svc.spec.serviceType == DesiredServiceType(site.spec)
      && svc.spec.selector == Labels(site.meta.name)
      && svc.spec.ports == [ServicePort(HttpPortName, HttpPort, WebPort)]
    ensures fault.None? && SvcKey(site) !in m ==>
      r.store[SvcKey(site)].meta.labels == Labels(site.meta.name)
    ensures fault.None? && SvcKey(site) in m ==>
      var old_svc, svc := m[SvcKey(site)], r.store[SvcKey(site)];
      svc.meta.labels == old_svc.meta.labels && svc.spec.clusterIP == old_svc.spec.clusterIP
  {
    var key := SvcKey(site);
    Persist(m, key, MutateService(Existing(m, key, InitialService(site)), site), fault)
  }

  /** How the status write's error decides the outcome: a conflict asks for a requeue, any other error is returned. */
  function StatusOutcome(error: Option<ApiError>): (r: Outcome)
    ensures r == Done <==> error.None?
    ensures r == Requeue <==> error == Some(Conflict)
    ensures r.Failed? ==> error == Some(r.error)
  {
    match error
    case None => Done
    case Some(e) => if e == Conflict then Requeue else Failed(e)
  }

  /** The store after a reconcile, and what the reconcile returned. */
  datatype Step = Step(state: ClusterState, outcome: Outcome)

  /**
   * One reconcile of the Website stored under `req`. A missing Website ends it
   * quietly; any failed step ends it with that error and no later step runs;
   * a conflict on the status write asks for a requeue.
   */
  function Reconciled(s: ClusterState, req: ObjectKey, f: Faults): Step {
    match Get(s.websites, req, f.getSite)
    case Failure(e) => Step(s, if e == NotFound then Done else Failed(e))
    case Success(site) =>
      var cm := ApplyConfigMap(s.configMaps, site, f.applyConfigMap);
      var s1 := s.(configMaps := cm.store);
      if cm.result.Failure? then Step(s1, Failed(cm.result.error)) else
      var dep := ApplyDeployment(s1.deployments, site, f.applyDeployment);
      var s2 := s1.(deployments := dep.store);
      if dep.result.Failure? then Step(s2, Failed(dep.result.error)) else
      var svc := ApplyService(s2.services, site, f.applyService);
      var s3 := s2.(services := svc.store);
      if svc.result.Failure? then Step(s3, Failed(svc.result.error)) else
      var status := ProjectStatus(site, Get(s3.deployments, DeployKey(site), f.getDeployment));
      var written := UpdateStatus(s3.websites, site.(status := status), f.updateStatus);
      Step(s3.(websites := written.websites), StatusOutcome(written.error))
  }

  /** The API server's stored objects, one map per kind. */
  class Cluster {
    var websites: map<ObjectKey, Website>
    var configMaps: map<ObjectKey, ConfigMap>
    var deployments: map<ObjectKey, Deployment>
    var services: map<ObjectKey, Service>

    constructor (s: ClusterState)
      ensures State() == s
    {
      websites, configMaps, deployments, services := s.websites, s.configMaps, s.deployments, s.services;
    }

    function State(): ClusterState
      reads this
    {
      ClusterState(websites, configMaps, deployments, services)
    }
  }

  class WebsiteReconciler {
    const client: Cluster

    constructor (client: Cluster)
      ensures this.client == client
    {
      this.client := client;
    }

    /** Drives the derived objects of the Website named by `req` toward its spec and records what it observed. */
    method Reconcile(req: ObjectKey, faults: Faults) returns (outcome: Outcome)
      modifies client
      ensures Step(client.State(), outcome) == Reconciled(old(client.State()), req, faults)
    {
      var fetched := Get(client.websites, req, faults.getSite);
      if fetched.Failure? {
        // A Website that is gone has been deleted: that is not an error.
        outcome := if fetched.error == NotFound then Done else Failed(fetched.error);
        return;
      }
      var site := fetched.value;

      var cmName := CmName(site.meta.name);
      var deployName := DeployName(site.meta.name);
      var svcName := SvcName(site.meta.name);
      var labels := Labels(site.meta.name);

      // 1) the ConfigMap holding the page; a stored object replaces the locally built one
      var cmKey := ObjectKey(site.meta.namespace, cmName);
      var cm := ConfigMap(ObjectMeta(cmName, site.meta.namespace, labels, None), None);
      if cmKey in client.configMaps {
        cm := client.configMaps[cmKey];
      }
      cm := MutateConfigMap(cm, site);
      var cmApplied := Persist(client.configMaps, cmKey, cm, faults.applyConfigMap);
      assert cmApplied == ApplyConfigMap(client.configMaps, site, faults.applyConfigMap);
      client.configMaps := cmApplied.store;
      if cmApplied.result.Failure? {
        outcome := Failed(cmApplied.result.error);
        return;
      }

      // 2) the Deployment running nginx over that page
      var deployKey := ObjectKey(site.meta.namespace, deployName);
      var deploy := Deployment(ObjectMeta(deployName, site.meta.namespace, labels, None),
                               EmptyDeploymentSpec, DeploymentStatus(0));
      if deployKey in client.deployments {
        deploy := client.deployments[deployKey];
      }
      deploy := MutateDeployment(deploy, site);
      var deployApplied := Persist(client.deployments, deployKey, deploy, faults.applyDeployment);
      assert deployApplied == ApplyDeployment(client.deployments, site, faults.applyDeployment);
      client.deployments := deployApplied.store;
      if deployApplied.result.Failure? {
        outcome := Failed(deployApplied.result.error);
        return;
      }

      // 3) the Service in front of the pods
      var svcKey := ObjectKey(site.meta.namespace, svcName);
      var svc := Service(ObjectMeta(svcName, site.meta.namespace, labels, None), EmptyServiceSpec);
      if svcKey in client.services {
        svc := client.services[svcKey];
      }
      svc := MutateService(svc, site);
      var svcApplied := Persist(client.services, svcKey, svc, faults.applyService);
      assert svcApplied == ApplyService(client.services, site, faults.applyService);
      client.services := svcApplied.store;
      if svcApplied.result.Failure? {
        outcome := Failed(svcApplied.result.error);
        return;
      }

      // 4) status, field by field on the fetched Website, then the status write
      var status := site.status;
      var fresh_deploy := Get(client.deployments, deployKey, faults.getDeployment);
      if fresh_deploy.Success? {
        status := status.(availableReplicas := fresh_deploy.value.status.availableReplicas);
      }
      status := status.(serviceName := svcName);
      status := status.(url := ServiceURL(svcName, site.meta.namespace));
      site := site.(status := status);

      var written := UpdateStatus(client.websites, site, faults.updateStatus);
      client.websites := written.websites;
      match written.error {
        case None =>
          outcome := Done;
        case Some(e) =>
          // a conflict means someone else wrote first: ask to be run again
          outcome := if e == Conflict then Requeue else Failed(e);
      }
    }
  }
}
