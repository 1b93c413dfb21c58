/** The links the pages render name routes of the built-in table, so the URLs built for them
    are never the empty string `createRouteURL` returns for an unknown route. */
module Links {
  import opened Wrappers
  import opened RouteTable
  import opened Router
  import CustomResourceList
  import GatewayDetails

  /** The name link of a custom resource resolves, whatever routes the store holds. */
  lemma CustomResourceLinkResolves(store: Option<RouteEntries>)
    ensures ResolveRoute(store, CustomResourceList.LinkRouteName).Some?
  {
    var t := DefaultRoutes();
    assert t[91].0 == "customresource";
    assert KeyMatches(t[91], CustomResourceList.LinkRouteName);
  }

  /** The "Class Name" link of a Gateway resolves, whatever routes the store holds. */
  lemma GatewayClassLinkResolves(store: Option<RouteEntries>, gatewayClassName: Option<string>)
    requires GatewayDetails.ClassNameValue(gatewayClassName).Some?
    ensures ResolveRoute(store, GatewayDetails.ClassNameValue(gatewayClassName).value.routeName).Some?
  {
    var t := DefaultRoutes();
    assert t[38].0 == "gatewayclass";
    assert KeyMatches(t[38], "gatewayclass");
  }
}
