/** The application's built-in route table (`defaultRoutes` in frontend/src/lib/router.tsx),
    kept as data in declaration order, and the catch-all `NotFoundRoute`. The React component
    attached to each route is not part of the model. */
module RouteTable {
  import opened Wrappers

  /** Sidebars the route table refers to by enum rather than by plain name. */
  datatype DefaultSidebar = HomeSidebar

  /** `Route.sidebar`: no entry (null), a named entry, or an item inside a given sidebar. */
  datatype Sidebar =
    | NoSidebar
    | Entry(entry: string)
    | Item(item: Option<string>, sidebar: DefaultSidebar)

  /** The `Route` record; an optional field the source leaves out is `None`.
      `electronOnly` stands for `disabled: !isElectron()`. */
  datatype Route = Route(
    path: string,
    exact: Option<bool> := None,
    name: Option<string> := None,
    noCluster: Option<bool> := None,
    useClusterURL: Option<bool> := None,
    noAuthRequired: Option<bool> := None,
    sidebar: Sidebar,
    hideAppBar: Option<bool> := None,
    electronOnly: bool := false,
    isFullWidth: Option<bool> := None)

  /** `disabled` of a route, given whether the app runs inside the desktop shell. */
  function Disabled(route: Route, isElectron: bool): (r: bool)
    ensures r <==> route.electronOnly && !isElectron
  {
    route.electronOnly && !isElectron
  }

  /** The entries of a route dictionary (`Object.entries` order). */
  type RouteEntries = seq<(string, Route)>

  /** One literal entry of `defaultRoutes`. The built-in table never sets the deprecated
      `noCluster` nor `hideAppBar`, so its rows have no such fields. */
  datatype TableEntry = TableEntry(
    key: string,
    path: string,
    exact: Option<bool> := None,
    name: Option<string> := None,
    useClusterURL: Option<bool> := None,
    noAuthRequired: Option<bool> := None,
    sidebar: Sidebar,
    electronOnly: bool := false,
    isFullWidth: Option<bool> := None)
  {
    function ToRoute(): (r: Route)
      ensures r.noCluster == None && r.path == path && r.useClusterURL == useClusterURL
    {
      Route(path := path, exact := exact, name := name, useClusterURL := useClusterURL,
            noAuthRequired := noAuthRequired, sidebar := sidebar, electronOnly := electronOnly,
            isFullWidth := isFullWidth)
    }
  }

  /** The literal entries of `defaultRoutes`, in declaration order. They are written in
      blocks of fifteen, joined below, so that the verifier reaches any entry in few steps. */
  const Block0: seq<TableEntry> := [
    TableEntry("cluster", path := "/", exact := Some(true), name := Some("Cluster"), sidebar := Entry("cluster")),
    TableEntry("chooser", path := "/", exact := Some(true), useClusterURL := Some(false), noAuthRequired := Some(true), name := Some("Choose a cluster"), sidebar := Item(Some("home"), HomeSidebar)),
    TableEntry("advancedSearch", path := "/advanced-search", exact := Some(true), name := Some("Advanced Search"), sidebar := Entry("advancedSearch")),
    TableEntry("namespaces", path := "/namespaces", exact := Some(true), name := Some("Namespaces"), sidebar := Entry("namespaces")),
    TableEntry("namespace", path := "/namespaces/:name", sidebar := Entry("namespaces")),
    TableEntry("nodes", path := "/nodes", exact := Some(true), name := Some("Nodes"), sidebar := Entry("nodes")),
    TableEntry("node", path := "/nodes/:name", sidebar := Entry("nodes")),
    TableEntry("storageClasses", path := "/storage/classes", exact := Some(true), name := Some("Storage Classes"), sidebar := Entry("storageClasses")),
    TableEntry("storageClass", path := "/storage/classes/:name", name := Some("Storage Classes"), sidebar := Entry("storageClasses")),
    TableEntry("persistentVolumes", path := "/storage/persistentvolumes", exact := Some(true), name := Some("Persistent Volumes"), sidebar := Entry("persistentVolumes")),
    TableEntry("persistentVolume", path := "/storage/persistentvolumes/:name", exact := Some(true), name := Some("Persistent Volume"), sidebar := Entry("persistentVolumes")),
    TableEntry("persistentVolumeClaims", path := "/storage/persistentvolumeclaims", exact := Some(true), name := Some("Persistent Volume Claims"), sidebar := Entry("persistentVolumeClaims")),
    TableEntry("persistentVolumeClaim", path := "/storage/persistentvolumeclaims/:namespace/:name", exact := Some(true), sidebar := Entry("persistentVolumeClaims")),
    TableEntry("workloads", path := "/workloads", exact := Some(true), name := Some("Workloads"), sidebar := Entry("workloads")),
    TableEntry("DaemonSet", path := "/daemonsets/:namespace/:name", exact := Some(true), sidebar := Entry("DaemonSets"))
  ]

  const Block1: seq<TableEntry> := [
    TableEntry("StatefulSet", path := "/statefulsets/:namespace/:name", exact := Some(true), sidebar := Entry("StatefulSets")),
    TableEntry("Deployment", path := "/deployments/:namespace/:name", exact := Some(true), sidebar := Entry("Deployments")),
    TableEntry("Job", path := "/jobs/:namespace/:name", exact := Some(true), sidebar := Entry("Jobs")),
    TableEntry("CronJob", path := "/cronjobs/:namespace/:name", exact := Some(true), sidebar := Entry("CronJobs")),
    TableEntry("Pods", path := "/pods", exact := Some(true), name := Some("Pods"), sidebar := Entry("Pods")),
    TableEntry("Pod", path := "/pods/:namespace/:name", exact := Some(true), sidebar := Entry("Pods")),
    TableEntry("services", path := "/services", exact := Some(true), name := Some("Services"), sidebar := Entry("services")),
    TableEntry("service", path := "/services/:namespace/:name", exact := Some(true), sidebar := Entry("services")),
    TableEntry("endpoints", path := "/endpoints", exact := Some(true), name := Some("Endpoints"), sidebar := Entry("endpoints")),
    TableEntry("endpoint", path := "/endpoints/:namespace/:name", exact := Some(true), sidebar := Entry("endpoints")),
    TableEntry("ingresses", path := "/ingresses", exact := Some(true), name := Some("Ingresses"), sidebar := Entry("ingresses")),
    TableEntry("ingress", path := "/ingresses/:namespace/:name", exact := Some(true), sidebar := Entry("ingresses")),
    TableEntry("ingressclasses", path := "/ingressclasses", exact := Some(true), name := Some("IngressClasses"), sidebar := Entry("ingressclasses")),
    TableEntry("ingressclass", path := "/ingressclasses/:name", exact := Some(true), sidebar := Entry("ingressclasses")),
    TableEntry("networkPolicies", path := "/networkpolicies", exact := Some(true), sidebar := Entry("NetworkPolicies"))
  ]

  const Block2: seq<TableEntry> := [
    TableEntry("networkPolicy", path := "/networkpolicies/:namespace/:name", exact := Some(true), sidebar := Entry("NetworkPolicies")),
    TableEntry("gateways", path := "/gateways", exact := Some(true), name := Some("Gateways"), sidebar := Entry("gateways")),
    TableEntry("gateway", path := "/gateways/:namespace/:name", exact := Some(true), name := Some("Gateways"), sidebar := Entry("gateways")),
    TableEntry("httproutes", path := "/httproutes", exact := Some(true), name := Some("HttpRoutes"), sidebar := Entry("httproutes")),
    TableEntry("httproute", path := "/httproutes/:namespace/:name", exact := Some(true), name := Some("HttpRoutes"), sidebar := Entry("httproutes")),
    TableEntry("grpcroutes", path := "/grpcroutes", exact := Some(true), name := Some("GRPCRoutes"), sidebar := Entry("grpcroutes")),
    TableEntry("grpcroute", path := "/grpcroutes/:namespace/:name", exact := Some(true), name := Some("GRPCRoutes"), sidebar := Entry("grpcroutes")),
    TableEntry("gatewayclasses", path := "/gatewayclasses", exact := Some(true), name := Some("GatewayClasses"), sidebar := Entry("gatewayclasses")),
    TableEntry("gatewayclass", path := "/gatewayclasses/:name", exact := Some(true), sidebar := Entry("gatewayclasses")),
    TableEntry("referencegrants", path := "/referencegrants", exact := Some(true), name := Some("ReferenceGrants"), sidebar := Entry("referencegrants")),
    TableEntry("referencegrant", path := "/referencegrant/:namespace/:name", exact := Some(true), name := Some("ReferenceGrants"), sidebar := Entry("referencegrants")),
    TableEntry("backendtlspolicies", path := "/backendtlspolicies", exact := Some(true), name := Some("BackendTLSPolicies"), sidebar := Entry("backendtlspolicies")),
    TableEntry("backendtlspolicy", path := "/backendtlspolicy/:namespace/:name", exact := Some(true), name := Some("BackendTLSPolicies"), sidebar := Entry("backendtlspolicies")),
    TableEntry("backendtrafficpolicies", path := "/backendtrafficpolicies", exact := Some(true), name := Some("BackendTrafficPolicies"), sidebar := Entry("backendtrafficpolicies")),
    TableEntry("xbackendtrafficpolicy", path := "/backendtrafficpolicy/:namespace/:name", exact := Some(true), name := Some("BackendTrafficPolicies"), sidebar := Entry("backendtrafficpolicies"))
  ]

  const Block3: seq<TableEntry> := [
    TableEntry("DaemonSets", path := "/daemonsets", exact := Some(true), name := Some("DaemonSets"), sidebar := Entry("DaemonSets")),
    TableEntry("Jobs", path := "/jobs", exact := Some(true), name := Some("Jobs"), sidebar := Entry("Jobs")),
    TableEntry("CronJobs", path := "/cronjobs", exact := Some(true), name := Some("CronJobs"), sidebar := Entry("CronJobs")),
    TableEntry("Deployments", path := "/deployments", exact := Some(true), name := Some("Deployments"), sidebar := Entry("Deployments")),
    TableEntry("StatefulSets", path := "/statefulsets", exact := Some(true), name := Some("StatefulSets"), sidebar := Entry("StatefulSets")),
    TableEntry("ReplicaSets", path := "/replicasets", exact := Some(true), name := Some("ReplicaSets"), sidebar := Entry("ReplicaSets")),
    TableEntry("ReplicaSet", path := "/replicasets/:namespace/:name", exact := Some(true), sidebar := Entry("ReplicaSets")),
    TableEntry("configMaps", path := "/configmaps", exact := Some(true), name := Some("Config Maps"), sidebar := Entry("configMaps")),
    TableEntry("configMap", path := "/configmaps/:namespace/:name", exact := Some(true), sidebar := Entry("configMaps")),
    TableEntry("serviceAccounts", path := "/serviceaccounts", exact := Some(true), name := Some("Service Accounts"), sidebar := Entry("serviceAccounts")),
    TableEntry("serviceAccount", path := "/serviceaccounts/:namespace/:name", exact := Some(true), sidebar := Entry("serviceAccounts")),
    TableEntry("roles", path := "/roles", exact := Some(true), name := Some("Roles"), sidebar := Entry("roles")),
    TableEntry("role", path := "/roles/:namespace/:name", exact := Some(true), sidebar := Entry("roles")),
    TableEntry("clusterrole", path := "/clusterroles/:name", exact := Some(true), sidebar := Entry("roles")),
    TableEntry("clusterRoles", path := "/roles", exact := Some(true), sidebar := Entry("roles"))
  ]

  const Block4: seq<TableEntry> := [
    TableEntry("roleBindings", path := "/rolebindings", exact := Some(true), name := Some("Role Bindings"), sidebar := Entry("roleBindings")),
    TableEntry("roleBinding", path := "/rolebinding/:namespace/:name", exact := Some(true), name := Some("Role Binding"), sidebar := Entry("roleBindings")),
    TableEntry("clusterRoleBinding", path := "/clusterrolebinding/:name", exact := Some(true), name := Some("Role Binding"), sidebar := Entry("roleBindings")),
    TableEntry("clusterRoleBindings", path := "/rolebindings", exact := Some(true), sidebar := Entry("roleBindings")),
    TableEntry("secrets", path := "/secrets", exact := Some(true), name := Some("Secrets"), sidebar := Entry("secrets")),
    TableEntry("secret", path := "/secrets/:namespace/:name", exact := Some(true), sidebar := Entry("secrets")),
    TableEntry("horizontalPodAutoscalers", path := "/horizontalpodautoscalers", exact := Some(true), name := Some("Horizontal Pod Autoscalers"), sidebar := Entry("horizontalPodAutoscalers")),
    TableEntry("horizontalPodAutoscaler", path := "/horizontalpodautoscalers/:namespace/:name", exact := Some(true), name := Some("Horizontal Pod Autoscaler"), sidebar := Entry("horizontalPodAutoscalers")),
    TableEntry("podDisruptionBudgets", path := "/poddisruptionbudgets", exact := Some(true), name := Some("Pod Disruption Budgets"), sidebar := Entry("podDisruptionBudgets")),
    TableEntry("podDisruptionBudget", path := "/poddisruptionbudgets/:namespace/:name", exact := Some(true), name := Some("Pod Disruption Budget"), sidebar := Entry("podDisruptionBudgets")),
    TableEntry("priorityclasses", path := "/priorityclasses", exact := Some(true), name := Some("Priority Classes"), sidebar := Entry("priorityClasses")),
    TableEntry("priorityClass", path := "/priorityclasses/:name", exact := Some(true), name := Some("PriorityClass"), sidebar := Entry("priorityClasses")),
    TableEntry("resourceQuotas", path := "/resourcequotas", exact := Some(true), name := Some("Resource Quotas"), sidebar := Entry("resourceQuotas")),
    TableEntry("resourceQuota", path := "/resourcequotas/:namespace/:name", exact := Some(true), name := Some("Resource Quota"), sidebar := Entry("resourceQuotas")),
    TableEntry("leases", path := "/leases", exact := Some(true), name := Some("Leases"), sidebar := Entry("leases"))
  ]

  const Block5: seq<TableEntry> := [
    TableEntry("lease", path := "/leases/:namespace/:name", exact := Some(true), name := Some("Lease"), sidebar := Entry("leases")),
    TableEntry("runtimeClasses", path := "/runtimeclasses", exact := Some(true), name := Some("Runtime Classes"), sidebar := Entry("runtimeClasses")),
    TableEntry("runtimeClass", path := "/runtimeclasses/:name", exact := Some(true), name := Some("Runtime Class"), sidebar := Entry("runtimeClasses")),
    TableEntry("limitRanges", path := "/limitranges", exact := Some(true), name := Some("Limit Ranges"), sidebar := Entry("limitRanges")),
    TableEntry("limitRange", path := "/limitranges/:namespace/:name", exact := Some(true), name := Some("Limit Range"), sidebar := Entry("limitRanges")),
    TableEntry("mutatingWebhookConfigurations", path := "/mutatingwebhookconfigurations", exact := Some(true), name := Some("Mutating Webhook Configurations"), sidebar := Entry("mutatingWebhookConfigurations")),
    TableEntry("mutatingWebhookConfiguration", path := "/mutatingwebhookconfigurations/:name", exact := Some(true), name := Some("Mutating Webhook Configuration"), sidebar := Entry("mutatingWebhookConfigurations")),
    TableEntry("validatingWebhookConfigurations", path := "/validatingwebhookconfigurations", exact := Some(true), name := Some("Validating Webhook Configurations"), sidebar := Entry("validatingWebhookConfigurations")),
    TableEntry("validatingWebhookConfiguration", path := "/validatingwebhookconfigurations/:name", exact := Some(true), name := Some("Validating Webhook Configuration"), sidebar := Entry("validatingWebhookConfigurations")),
    TableEntry("verticalPodAutoscalers", path := "/verticalpodautoscalers", exact := Some(true), name := Some("Vertical Pod Autoscalers"), sidebar := Entry("verticalPodAutoscalers")),
    TableEntry("verticalPodAutoscaler", path := "/verticalpodautoscalers/:namespace/:name", exact := Some(true), name := Some("Vertical Pod Autoscaler"), sidebar := Entry("verticalPodAutoscalers")),
    TableEntry("token", path := "/token", exact := Some(true), noAuthRequired := Some(true), name := Some("Token"), sidebar := NoSidebar),
    TableEntry("oidcAuth", path := "/auth", noAuthRequired := Some(true), name := Some("OidcAuth"), sidebar := NoSidebar),
    TableEntry("login", path := "/login", exact := Some(true), noAuthRequired := Some(true), name := Some("Login"), sidebar := NoSidebar),
    TableEntry("crds", path := "/crds", exact := Some(true), name := Some("CRDs"), sidebar := Entry("crds"))
  ]

  const Block6: seq<TableEntry> := [
    TableEntry("crd", path := "/crds/:name", exact := Some(true), name := Some("CRD"), sidebar := Entry("crds")),
    TableEntry("customresource", path := "/customresources/:crd/:namespace/:crName", exact := Some(true), name := Some("Custom Resource"), sidebar := Entry("crds")),
    TableEntry("customresources", path := "/customresources/:crd", exact := Some(true), name := Some("Custom Resources"), sidebar := Entry("crds")),
    TableEntry("crs", path := "/crs", exact := Some(true), name := Some("CRInstances"), sidebar := Entry("crs")),
    TableEntry("notifications", path := "/notifications", exact := Some(true), useClusterURL := Some(false), noAuthRequired := Some(true), name := Some("Notifications"), sidebar := Item(Some("notifications"), HomeSidebar)),
    TableEntry("settings", path := "/settings/general", exact := Some(true), useClusterURL := Some(false), noAuthRequired := Some(true), name := Some("Settings"), sidebar := Item(Some("settingsGeneral"), HomeSidebar)),
    TableEntry("settingsClusters", path := "/settings/clusters", exact := Some(true), useClusterURL := Some(false), noAuthRequired := Some(true), name := Some("Clusters"), sidebar := Entry("settingsClusters")),
    TableEntry("settingsCluster", path := "/settings", exact := Some(true), useClusterURL := Some(true), noAuthRequired := Some(true), name := Some("Cluster Settings"), sidebar := Item(Some("settingsCluster"), HomeSidebar)),
    TableEntry("settingsClusterHomeContext", path := "/settings/cluster", exact := Some(true), useClusterURL := Some(false), noAuthRequired := Some(true), name := Some("Cluster Settings"), sidebar := Item(Some("settingsCluster"), HomeSidebar)),
    TableEntry("plugins", path := "/settings/plugins", exact := Some(true), useClusterURL := Some(false), noAuthRequired := Some(true), name := Some("Plugins"), sidebar := Item(Some("plugins"), HomeSidebar)),
    TableEntry("pluginDetails", path := "/settings/plugins/:name", exact := Some(true), useClusterURL := Some(false), noAuthRequired := Some(true), name := Some("Plugin Details"), sidebar := Item(Some("plugins"), HomeSidebar)),
    TableEntry("portforwards", path := "/portforwards", exact := Some(true), name := Some("PortForwards"), sidebar := Entry("portforwards"), electronOnly := true),
    TableEntry("loadKubeConfig", path := "/load-kube-config", exact := Some(true), useClusterURL := Some(false), noAuthRequired := Some(true), name := Some("Load KubeConfig"), sidebar := NoSidebar, electronOnly := true),
    TableEntry("addCluster", path := "/add-cluster", exact := Some(true), useClusterURL := Some(false), noAuthRequired := Some(true), name := Some("Add Cluster"), sidebar := Item(Some("addCluster"), HomeSidebar), electronOnly := true),
    TableEntry("map", path := "/map", exact := Some(true), isFullWidth := Some(true), name := Some("Map"), sidebar := Entry("map"))
  ]

  const DefaultRouteEntries: seq<TableEntry> :=
    Block0 + Block1 + Block2 + Block3 + Block4 + Block5 + Block6

  /** `defaultRoutes` as a dictionary's entries, in declaration order. */
  function DefaultRoutes(): (r: RouteEntries)
    ensures |r| == |DefaultRouteEntries|
    ensures forall i :: 0 <= i < |r| ==>
      r[i] == (DefaultRouteEntries[i].key, DefaultRouteEntries[i].ToRoute())
  {
    seq(|DefaultRouteEntries|, i requires 0 <= i < |DefaultRouteEntries| =>
      (DefaultRouteEntries[i].key, DefaultRouteEntries[i].ToRoute()))
  }

  /** The path of the catch-all route. */
  const NotFoundPath := "*"

  const NotFoundRoute := Route(
    path := NotFoundPath, exact := Some(true), name := Some("Whoops! This page doesn't exist"),
    sidebar := NoSidebar, noAuthRequired := Some(true))

  /** Which blocks hold desktop-only rows: only the twelfth to fourteenth rows of the last one. */
  lemma BlocksElectronOnly()
    ensures forall j :: 0 <= j < |Block0| ==> !Block0[j].electronOnly
    ensures forall j :: 0 <= j < |Block1| ==> !Block1[j].electronOnly
    ensures forall j :: 0 <= j < |Block2| ==> !Block2[j].electronOnly
    ensures forall j :: 0 <= j < |Block3| ==> !Block3[j].electronOnly
    ensures forall j :: 0 <= j < |Block4| ==> !Block4[j].electronOnly
    ensures forall j :: 0 <= j < |Block5| ==> !Block5[j].electronOnly
    ensures forall j :: 0 <= j < |Block6| ==> (Block6[j].electronOnly <==> 11 <= j <= 13)
  {
  }

  /** Outside the desktop shell exactly three built-in routes are disabled: `portforwards`,
      `loadKubeConfig` and `addCluster`; inside it none is. */
  lemma DesktopOnlyRoutes(i: nat, isElectron: bool)
    requires i < |DefaultRoutes()|
    ensures Disabled(DefaultRoutes()[i].1, isElectron) <==> !isElectron && 101 <= i <= 103
    ensures DefaultRoutes()[101].0 == "portforwards"
    ensures DefaultRoutes()[102].0 == "loadKubeConfig"
    ensures DefaultRoutes()[103].0 == "addCluster"
  {
    BlocksElectronOnly();
    assert DefaultRoutes()[i].1.electronOnly == DefaultRouteEntries[i].electronOnly;
    if i < 15 { assert DefaultRouteEntries[i] == Block0[i]; }
    else if i < 30 { assert DefaultRouteEntries[i] == Block1[i - 15]; }
    else if i < 45 { assert DefaultRouteEntries[i] == Block2[i - 30]; }
    else if i < 60 { assert DefaultRouteEntries[i] == Block3[i - 45]; }
    else if i < 75 { assert DefaultRouteEntries[i] == Block4[i - 60]; }
    else if i < 90 { assert DefaultRouteEntries[i] == Block5[i - 75]; }
    else { assert DefaultRouteEntries[i] == Block6[i - 90]; }
  }
}
