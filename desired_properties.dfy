/** Properties of the pure part of the controller. */
module DesiredProperties {
  import opened Wrappers
  import opened Meta
  import opened WebsiteTypes
  import opened Resources
  import opened Desired

  /** Applying a mutate closure twice with the same site gives the object it gives once. */
  lemma MutationsIdempotent(site: Website, cm: ConfigMap, d: Deployment, svc: Service)
    ensures MutateConfigMap(MutateConfigMap(cm, site), site) == MutateConfigMap(cm, site)
    ensures MutateDeployment(MutateDeployment(d, site), site) == MutateDeployment(d, site)
    ensures MutateService(MutateService(svc, site), site) == MutateService(svc, site)
  {
    var once := MutateConfigMap(cm, site);
    var twice := MutateConfigMap(once, site);
    assert twice.data.value == once.data.value;
  }

  /** The closures read only the site's identity and spec, never its status. */
  lemma MutationsIgnoreStatus(a: Website, b: Website, cm: ConfigMap, d: Deployment, svc: Service)
    requires a.meta == b.meta && a.spec == b.spec
    ensures MutateConfigMap(cm, a) == MutateConfigMap(cm, b)
    ensures MutateDeployment(d, a) == MutateDeployment(d, b)
    ensures MutateService(svc, a) == MutateService(svc, b)
  {
  }

  /** Omitting a defaulted field shapes the objects exactly as writing its default would. */
  lemma OmittedFieldsMeanDefaults(site: Website, d: Deployment, svc: Service)
    ensures MutateDeployment(d, site.(spec := Defaulted(site.spec))) == MutateDeployment(d, site)
    ensures MutateService(svc, site.(spec := Defaulted(site.spec))) == MutateService(svc, site)
    ensures Defaulted(Defaulted(site.spec)) == Defaulted(site.spec)
  {
  }

  /**
   * Default substitution: a site that gives no replica count, no image and no
   * service type gets one replica of the nginx image behind a ClusterIP Service.
   */
  lemma DefaultSubstitution(site: Website, d: Deployment, svc: Service)
    requires site.spec.replicas.None? && site.spec.image == "" && site.spec.serviceType == ""
    ensures MutateDeployment(d, site).spec.replicas == Some(1)
    ensures MutateDeployment(d, site).spec.template.containers[0].image == "nginx:1.27-alpine"
    ensures MutateService(svc, site).spec.serviceType == "ClusterIP"
  {
  }

  /** Traffic routing: the Service selects exactly the pods the Deployment selects and creates. */
  lemma ServiceSelectsDeploymentPods(site: Website, d: Deployment, svc: Service)
    ensures MutateService(svc, site).spec.selector == MutateDeployment(d, site).spec.template.labels
    ensures MutateDeployment(d, site).spec.selector == Some(LabelSelector(MutateService(svc, site).spec.selector))
  {
  }

  /** For a valid spec the Deployment asks for at least one replica and the Service has a schema-listed type. */
  lemma ValidSpecShapesValidObjects(site: Website, d: Deployment, svc: Service)
    requires ValidSpec(site.spec)
    ensures MutateDeployment(d, site).spec.replicas.value >= 1
    ensures MutateService(svc, site).spec.serviceType in {ClusterIP, NodePort, LoadBalancer}
  {
  }

  /** In `a.n == b.m` with dot-free `n` and `m`, the part after the last dot cannot be longer on one side. */
  lemma {:induction false} DotSuffixNotLonger(a: string, n: string, b: string, m: string)
    requires '.' !in n && '.' !in m
    requires a + "." + n == b + "." + m
    ensures |m| <= |n|
  {
    var x := a + "." + n;
    assert x[|a|] == '.';
    if |n| < |m| {
      assert false;
    }
  }

  /** Splitting `a.n` at its last dot, when `n` has no dot, gives back `a` and `n`. */
  lemma {:induction false} DotJoinInjective(a: string, n: string, b: string, m: string)
    requires '.' !in n && '.' !in m
    requires a + "." + n == b + "." + m
    ensures a == b && n == m
  {
    DotSuffixNotLonger(a, n, b, m);
    DotSuffixNotLonger(b, m, a, n);
    var x := a + "." + n;
    assert a == x[..|a|] && b == x[..|b|];
    assert n == x[|a| + 1..] && m == x[|b| + 1..];
  }

  /**
   * Distinct services get distinct URLs: when namespaces contain no dot (as
   * Kubernetes namespace names never do) the URL determines both the service
   * name and the namespace.
   */
  lemma {:induction false} ServiceURLInjective(a: string, n: string, b: string, m: string)
    requires '.' !in n && '.' !in m
    requires ServiceURL(a, n) == ServiceURL(b, m)
    ensures a == b && n == m
  {
    var u := ServiceURL(a, n);
    var prefix := "http://";
    var suffix := ".svc.cluster.local";
    assert u == prefix + (a + "." + n) + suffix;
    assert u == prefix + (b + "." + m) + suffix;
    assert u[|prefix|..|u| - |suffix|] == a + "." + n;
    assert u[|prefix|..|u| - |suffix|] == b + "." + m;
    DotJoinInjective(a, n, b, m);
  }

  /**
   * Once the Deployment is observed, the projected status depends on the site's
   * identity and that observation only, not on the status it replaces.
   */
  lemma StatusRecomputedFromObservation(a: Website, b: Website, d: Deployment)
    requires a.meta == b.meta
    ensures ProjectStatus(a, Success(d)) == ProjectStatus(b, Success(d))
  {
  }
}
