/** Properties of one reconcile, and of two reconciles in a row. */
module ReconcileProperties {
  import opened Wrappers
  import opened Meta
  import opened WebsiteTypes
  import opened Resources
  import opened Desired
  import opened DesiredProperties
  import opened Store
  import opened Reconciler

  /** The Website under `req` is read successfully. */
  predicate Fetched(s: ClusterState, req: ObjectKey, f: Faults) {
    f.getSite.None? && req in s.websites
  }

  /** All three create-or-update calls succeed. */
  predicate AppliesSucceed(f: Faults) {
    f.applyConfigMap.None? && f.applyDeployment.None? && f.applyService.None?
  }

  /**
   * The site's three derived objects exist, are controlled by the site, and
   * carry every field the controller owns as the site's spec dictates,
   * whatever they held before.
   */
  ghost predicate Converged(s: ClusterState, site: Website) {
    && CmKey(site) in s.configMaps && DeployKey(site) in s.deployments && SvcKey(site) in s.services
    && var cm, d, svc := s.configMaps[CmKey(site)], s.deployments[DeployKey(site)], s.services[SvcKey(site)];
    && cm.meta.controller == Some(KeyOf(site.meta))
    && d.meta.controller == Some(KeyOf(site.meta))
    && svc.meta.controller == Some(KeyOf(site.meta))
    && cm.data.Some? && IndexKey in cm.data.value && cm.data.value[IndexKey] == site.spec.indexHTML
    && d.spec.replicas == Some(DesiredReplicas(site.spec))
    && d.spec.template.labels == Labels(site.meta.name)
    && SelectorMatchesTemplate(d)
    && ServesConfigMap(d.spec.template, CmName(site.meta.name))
    && d.spec.template.containers[0].image == DesiredImage(site.spec)
    && svc.spec.serviceType == DesiredServiceType(site.spec)
    && svc.spec.selector == Labels(site.meta.name)
    && svc.spec.ports == [ServicePort(HttpPortName, HttpPort, WebPort)]
  }

  /** The store once all three create-or-update calls have succeeded, before the status write. */
  function AfterApplies(s: ClusterState, site: Website): ClusterState {
    ClusterState(
      s.websites,
      ApplyConfigMap(s.configMaps, site, None).store,
      ApplyDeployment(s.deployments, site, None).store,
      ApplyService(s.services, site, None).store)
  }

  /** The status write a reconcile ends with, once all three objects are applied. */
  function FinalStatusWrite(s: ClusterState, site: Website, f: Faults): StatusWritten {
    var s3 := AfterApplies(s, site);
    UpdateStatus(s3.websites, site.(status := ProjectStatus(site, Get(s3.deployments, DeployKey(site), f.getDeployment))), f.updateStatus)
  }

  /** The path through a reconcile whose three create-or-update calls succeed. */
  lemma ReconcileAfterApplies(s: ClusterState, req: ObjectKey, f: Faults)
    requires Fetched(s, req, f) && AppliesSucceed(f)
    ensures var site := s.websites[req]; var written := FinalStatusWrite(s, site, f);
      Reconciled(s, req, f) == Step(AfterApplies(s, site).(websites := written.websites), StatusOutcome(written.error))
  {
    var site := s.websites[req];
    var cm := ApplyConfigMap(s.configMaps, site, None);
    var dep := ApplyDeployment(s.deployments, site, None);
    var svc := ApplyService(s.services, site, None);
    assert AfterApplies(s, site) == ClusterState(s.websites, cm.store, dep.store, svc.store);
  }

  /** Fetching: a missing Website ends the reconcile successfully with no write; any other read error is returned. */
  lemma FetchOutcome(s: ClusterState, req: ObjectKey, f: Faults)
    requires !Fetched(s, req, f)
    ensures Reconciled(s, req, f).state == s
    ensures Reconciled(s, req, f).outcome ==
      if f.getSite.None? || f.getSite.value == NotFound then Done else Failed(f.getSite.value)
  {
  }

  /**
   * A failed create-or-update is returned as an error; the objects applied
   * before it stay written, and nothing after it is written.
   */
  lemma FailedApplyStopsReconcile(s: ClusterState, req: ObjectKey, f: Faults)
    requires Fetched(s, req, f)
    ensures f.applyConfigMap.Some? ==>
      Reconciled(s, req, f) == Step(s, Failed(f.applyConfigMap.value))
    ensures f.applyConfigMap.None? && f.applyDeployment.Some? ==>
      var site := s.websites[req];
      Reconciled(s, req, f) == Step(
        s.(configMaps := ApplyConfigMap(s.configMaps, site, None).store),
        Failed(f.applyDeployment.value))
    ensures f.applyConfigMap.None? && f.applyDeployment.None? && f.applyService.Some? ==>
      var site := s.websites[req];
      Reconciled(s, req, f) == Step(
        s.(configMaps := ApplyConfigMap(s.configMaps, site, None).store,
           deployments := ApplyDeployment(s.deployments, site, None).store),
        Failed(f.applyService.value))
  {
  }

  /** Once all three objects are applied, the derived objects are converged. */
  lemma {:induction false} AppliesConverge(s: ClusterState, site: Website)
    ensures Converged(AfterApplies(s, site), site)
  {
    var cm := ApplyConfigMap(s.configMaps, site, None);
    var dep := ApplyDeployment(s.deployments, site, None);
    var svc := ApplyService(s.services, site, None);
    assert cm.result.Success? && dep.result.Success? && svc.result.Success?;
  }

  /**
   * Once all three objects are applied, the status write decides the outcome:
   * success is Done, a conflict is a requeue, any other error is returned; the
   * derived objects are converged in all three cases.
   */
  lemma StatusWriteOutcome(s: ClusterState, req: ObjectKey, f: Faults)
    requires Valid(s) && Fetched(s, req, f) && AppliesSucceed(f)
    ensures Converged(Reconciled(s, req, f).state, s.websites[req])
    ensures Reconciled(s, req, f).outcome ==
      match f.updateStatus
      case None => Done
      case Some(e) => if e == Conflict then Requeue else Failed(e)
  {
    var site := s.websites[req];
    assert KeyOf(site.meta) == req;
    ReconcileAfterApplies(s, req, f);
    AppliesConverge(s, site);
  }

  /** A reconcile that gets past the three create-or-update calls leaves the derived objects converged. */
  lemma ReconcileConverges(s: ClusterState, req: ObjectKey, f: Faults)
    requires Fetched(s, req, f)
    ensures var r := Reconciled(s, req, f);
      r.outcome == Done || r.outcome == Requeue ==> Converged(r.state, s.websites[req])
  {
    if AppliesSucceed(f) {
      ReconcileAfterApplies(s, req, f);
      AppliesConverge(s, s.websites[req]);
    }
  }

  /** After a successful status write the status is recomputed from the re-read Deployment and the service name. */
  lemma ReconcileStatus(s: ClusterState, req: ObjectKey, f: Faults)
    requires Valid(s) && Fetched(s, req, f)
    requires Reconciled(s, req, f).outcome == Done
    ensures var r := Reconciled(s, req, f).state; var site := s.websites[req];
      && DeployKey(site) in r.deployments
      && r.websites[req].status == WebsiteStatus(
           if f.getDeployment.None? then r.deployments[DeployKey(site)].status.availableReplicas
           else site.status.availableReplicas,
           SvcName(site.meta.name),
           ServiceURL(SvcName(site.meta.name), site.meta.namespace))
  {
    var site := s.websites[req];
    assert KeyOf(site.meta) == req;
    ReconcileAfterApplies(s, req, f);
    AppliesConverge(s, site);
  }

  /** Each store a reconcile leaves behind is either untouched or the result of its own step. */
  lemma ReconcileComponents(s: ClusterState, req: ObjectKey, f: Faults)
    requires Fetched(s, req, f)
    ensures var r := Reconciled(s, req, f).state; var site := s.websites[req];
      && (r.configMaps == s.configMaps || r.configMaps == ApplyConfigMap(s.configMaps, site, None).store)
      && (r.deployments == s.deployments || r.deployments == ApplyDeployment(s.deployments, site, None).store)
      && (r.services == s.services || r.services == ApplyService(s.services, site, None).store)
      && (r.websites == s.websites || r.websites == FinalStatusWrite(s, site, f).websites)
  {
    if AppliesSucceed(f) {
      ReconcileAfterApplies(s, req, f);
    } else {
      FailedApplyStopsReconcile(s, req, f);
    }
  }

  /**
   * A reconcile never deletes anything, never changes any Website's identity or
   * spec, changes no other Website at all, and touches no derived object other
   * than the three named after the reconciled site.
   */
  lemma ReconcileTouchesOnlyItsOwn(s: ClusterState, req: ObjectKey, f: Faults)
    requires Valid(s)
    ensures var r := Reconciled(s, req, f).state;
      && r.websites.Keys == s.websites.Keys
      && (forall k :: k in s.websites ==>
            r.websites[k].meta == s.websites[k].meta && r.websites[k].spec == s.websites[k].spec)
      && (forall k :: k in s.websites && k != req ==> r.websites[k] == s.websites[k])
      && s.configMaps.Keys <= r.configMaps.Keys
      && s.deployments.Keys <= r.deployments.Keys
      && s.services.Keys <= r.services.Keys
    ensures var r := Reconciled(s, req, f).state;
      req in s.websites ==>
        var site := s.websites[req];
        && (forall k :: k in s.configMaps && k != CmKey(site) ==> r.configMaps[k] == s.configMaps[k])
        && (forall k :: k in s.deployments && k != DeployKey(site) ==> r.deployments[k] == s.deployments[k])
        && (forall k :: k in s.services && k != SvcKey(site) ==> r.services[k] == s.services[k])
  {
    if Fetched(s, req, f) {
      var site := s.websites[req];
      assert KeyOf(site.meta) == req;
      ReconcileComponents(s, req, f);
    }
  }

  lemma ApplyKeepsKeyed(s: ClusterState, site: Website, f: Faults)
    requires Valid(s)
    ensures ConfigMapsKeyed(ApplyConfigMap(s.configMaps, site, None).store)
    ensures DeploymentsKeyed(ApplyDeployment(s.deployments, site, None).store)
    ensures ServicesKeyed(ApplyService(s.services, site, None).store)
    ensures WebsitesKeyed(FinalStatusWrite(s, site, f).websites)
  {
  }

  /** Every object stays stored under its own name. */
  lemma ReconcilePreservesValid(s: ClusterState, req: ObjectKey, f: Faults)
    requires Valid(s)
    ensures Valid(Reconciled(s, req, f).state)
  {
    if Fetched(s, req, f) {
      ReconcileComponents(s, req, f);
      ApplyKeepsKeyed(s, s.websites[req], f);
    }
  }

  /** Applying the same spec a second time finds every object already in shape and writes nothing. */
  lemma {:induction false} ReapplyUnchanged(s: ClusterState, site: Website, again: Website)
    requires again.meta == site.meta && again.spec == site.spec
    ensures var t := AfterApplies(s, site);
      && ApplyConfigMap(t.configMaps, again, None) == Applied(t.configMaps, Success(Unchanged))
      && ApplyDeployment(t.deployments, again, None) == Applied(t.deployments, Success(Unchanged))
      && ApplyService(t.services, again, None) == Applied(t.services, Success(Unchanged))
  {
    var t := AfterApplies(s, site);
    var cm0 := Existing(s.configMaps, CmKey(site), InitialConfigMap(site));
    var d0 := Existing(s.deployments, DeployKey(site), InitialDeployment(site));
    var svc0 := Existing(s.services, SvcKey(site), InitialService(site));
    var cm1, d1, svc1 := MutateConfigMap(cm0, site), MutateDeployment(d0, site), MutateService(svc0, site);
    assert t.configMaps == s.configMaps[CmKey(site) := cm1];
    assert t.deployments == s.deployments[DeployKey(site) := d1];
    assert t.services == s.services[SvcKey(site) := svc1];
    MutationsIdempotent(site, cm0, d0, svc0);
    MutationsIgnoreStatus(again, site, cm1, d1, svc1);
    assert CmKey(again) == CmKey(site) && DeployKey(again) == DeployKey(site) && SvcKey(again) == SvcKey(site);
    assert Existing(t.configMaps, CmKey(again), InitialConfigMap(again)) == cm1;
    assert Existing(t.deployments, DeployKey(again), InitialDeployment(again)) == d1;
    assert Existing(t.services, SvcKey(again), InitialService(again)) == svc1;
  }

  /** A fault-free reconcile of a stored Website: the three objects applied, then its status recomputed. */
  lemma {:induction false} FaultFreeReconcile(s: ClusterState, req: ObjectKey)
    requires Valid(s) && req in s.websites
    ensures var site := s.websites[req]; var t := AfterApplies(s, site);
      && DeployKey(site) in t.deployments
      && Reconciled(s, req, NoFaults) == Step(
           t.(websites := s.websites[req := site.(status := ProjectStatus(site, Success(t.deployments[DeployKey(site)])))]),
           Done)
  {
    var site := s.websites[req];
    assert KeyOf(site.meta) == req;
    ReconcileAfterApplies(s, req, NoFaults);
    AppliesConverge(s, site);
  }

  /**
   * Reconciling again after a successful reconcile, with nothing changed in
   * between, writes nothing new: each create-or-update reports Unchanged and
   * the store and outcome are the same as after the first run.
   */
  lemma {:induction false} ReconcileIdempotent(s: ClusterState, req: ObjectKey)
    requires Valid(s) && req in s.websites
    ensures var s1 := Reconciled(s, req, NoFaults).state;
      Reconciled(s1, req, NoFaults) == Step(s1, Done)
    ensures var s1 := Reconciled(s, req, NoFaults).state;
      && req in s1.websites
      && ApplyConfigMap(s1.configMaps, s1.websites[req], None).result == Success(Unchanged)
      && ApplyDeployment(s1.deployments, s1.websites[req], None).result == Success(Unchanged)
      && ApplyService(s1.services, s1.websites[req], None).result == Success(Unchanged)
  {
    var site := s.websites[req];
    FaultFreeReconcile(s, req);
    ReconcilePreservesValid(s, req, NoFaults);
    var t := AfterApplies(s, site);
    var site1 := site.(status := ProjectStatus(site, Success(t.deployments[DeployKey(site)])));
    var s1 := t.(websites := s.websites[req := site1]);
    assert Reconciled(s, req, NoFaults).state == s1;

    ReapplyUnchanged(s, site, site1);
    assert AfterApplies(s1, site1) == s1;
    FaultFreeReconcile(s1, req);
    assert s1.websites[req] == site1;
    assert ProjectStatus(site1, Success(s1.deployments[DeployKey(site1)])) == site1.status;
    assert s1.websites[req := site1] == s1.websites;
  }

  /**
   * After a reconcile that gets past the three create-or-update calls, the
   * stored Service selects exactly the pods the stored Deployment selects and
   * stamps out, whatever either object held before.
   */
  lemma ReconcileRoutesServiceToPods(s: ClusterState, req: ObjectKey, f: Faults)
    requires Fetched(s, req, f)
    ensures var r := Reconciled(s, req, f); var site := s.websites[req];
      r.outcome == Done || r.outcome == Requeue ==>
        && SvcKey(site) in r.state.services && DeployKey(site) in r.state.deployments
        && r.state.services[SvcKey(site)].spec.selector == r.state.deployments[DeployKey(site)].spec.template.labels
        && r.state.deployments[DeployKey(site)].spec.selector ==
             Some(LabelSelector(r.state.services[SvcKey(site)].spec.selector))
  {
    ReconcileConverges(s, req, f);
  }

  /**
   * The controller's own scenario: Website `test-resource` in `default` with
   * one replica, a page and ClusterIP, reconciled into an empty cluster with no
   * errors. The spec is untouched afterwards and the derived objects hold the
   * page, the default image, one replica, ClusterIP and port 80 to 8080.
   */
  lemma EndToEndScenario()
    ensures
      var key := ObjectKey("default", "test-resource");
      var html := "<html><body><h1>Test Website</h1></body></html>";
      var spec := WebsiteSpec("", Some(1), html, ClusterIP);
      var site := Website(ObjectMeta("test-resource", "default", map[], None), spec, ZeroStatus);
      var s := ClusterState(map[key := site], map[], map[], map[]);
      var r := Reconciled(s, key, NoFaults);
      && r.outcome == Done
      && r.state.websites[key].spec == spec
      && CmKey(site) in r.state.configMaps && DeployKey(site) in r.state.deployments
      && SvcKey(site) in r.state.services
      && r.state.configMaps[CmKey(site)].data == Some(map["index.html" := html])
      && r.state.deployments[DeployKey(site)].spec.replicas == Some(1)
      && r.state.deployments[DeployKey(site)].spec.template.containers[0].image == "nginx:1.27-alpine"
      && r.state.services[SvcKey(site)].spec.serviceType == "ClusterIP"
      && r.state.services[SvcKey(site)].spec.ports == [ServicePort("http", 80, 8080)]
      && r.state.websites[key].status.availableReplicas == 0
      && r.state.websites[key].status.serviceName == SvcName("test-resource")
      && r.state.websites[key].status.url == ServiceURL(SvcName("test-resource"), "default")
  {
    var key := ObjectKey("default", "test-resource");
    var html := "<html><body><h1>Test Website</h1></body></html>";
    var spec := WebsiteSpec("", Some(1), html, ClusterIP);
    var site := Website(ObjectMeta("test-resource", "default", map[], None), spec, ZeroStatus);
    var s := ClusterState(map[key := site], map[], map[], map[]);
    ReconcileAfterApplies(s, key, NoFaults);
    AppliesConverge(s, site);
  }
}
