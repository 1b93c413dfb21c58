# Headlamp frontend routing and resource pages, modelled in Dafny

This project models four pieces of the Headlamp web frontend, a Kubernetes dashboard written in TypeScript and React, and proves properties of the model.

- **The router** (`frontend/src/lib/router.tsx`):
  - the built-in route table `defaultRoutes`, with 105 routes kept as data in declaration order, and the catch-all `NotFoundRoute`;
  - the case-insensitive lookup `getRoute`;
  - the cluster-URL decision `getRouteUseClusterURL`;
  - `getRoutePath`;
  - `createRouteURL`. It looks up a route stored by plugins by name, then by key, then among the built-in routes. It then chooses the cluster, fills in the parameters, redirects `settingsCluster`, and finally calls `generatePath`.
- **The CronJob details page** (`frontend/src/components/cronjob/Details.tsx`):
  - the default name of a manually spawned Job, cut so that it fits the 63-character limit on names;
  - the Job that `handleSpawn` builds from the job template;
  - the list of Jobs the CronJob owns;
  - the suspend/resume button and its "pending" state.
- **The custom resource list page** (`frontend/src/components/crd/CustomResourceList.tsx`):
  - which view is shown while the CRD loads;
  - the name link of each resource;
  - `getValueWithJSONPath`;
  - the printer columns taken from the CRD's main version;
  - the final column list, with `namespace` spliced in for namespaced CRDs.
- **The Gateway details page** (`frontend/src/components/gateway/GatewayDetails.tsx`):
  - the condition labels;
  - the five-row table of each listener, paired with the listener's status;
  - the Listeners and Addresses sections;
  - the Gateway class link.

Modules, one per file:

- `Wrappers`: `Option`.
- `SeqUtil`: the first index satisfying a predicate, and `find`.
- `Text`: the JavaScript string operations the code relies on, namely ASCII `toLowerCase`, truthiness, template interpolation of `undefined`, and `substring`'s clamping and swapping.
- `RouteTable`.
- `Router`.
- `CronJobDetails`.
- `CustomResourceList`.
- `GatewayDetails`.
- `Links`: facts that tie the pages' links to the route table.

Code that works by changing state is modelled as classes:

- the spawn dialog's `jobName`;
- the page's `isSpawnDialogOpen` and `isPendingSuspend`.

The loops are modelled as methods with loop invariants, each proved against a specification function:

- the key scan in `getRoute`;
- the column loop in `additionalPrinterCols`.

Everything else is modelled as functions.

The program reads the deprecated `noCluster` flag against its own documentation (see "## Findings"). So `getRoutePath` and `createRouteURL` take a `Reading` parameter:

- `AsWritten` is the program as it stands. Read with it, every contract about these two operations describes the program.
- `Intended` is the documented meaning of the flag.

Lemmas show that the two readings give the same path and URL for every route that does not set `noCluster` alone, which includes every built-in route.

What the model takes from the outside, as parameters:

| source | parameter or field |
|---|---|
| application store's route registry | `store` |
| `getClusterPathParam()` | `current` |
| `getClusterPrefixedPath` | `prefix` |
| react-router's `generatePath` | `generatePath` |
| the JSONPath library | `query` |
| `localeDate` | `localeDate` |
| the time-and-random string from `uniqueString()` | `unique` |
| `getListernerStatusByName` | `statusByName` |
| `getMainAPIGroup` | `Crd.mainVersion` |
| `makeCRClass` | `Crd.hasCRClass` |

## Model

| member | source | states |
|---|---|---|
| RouteTable.DefaultRoutes | frontend/src/lib/router.tsx:162-959 | The built-in table, entry by entry and in declaration order, with each literal row turned into a `Route`. |
| RouteTable.TableEntry.ToRoute | frontend/src/lib/router.tsx:128-158 | A built-in row becomes a `Route` with the same path and `useClusterURL` and with no deprecated `noCluster`. |
| RouteTable.Disabled | frontend/src/lib/router.tsx:925 | `disabled: !isElectron()`: a route is disabled exactly when it is desktop-only and the app does not run in the desktop shell. |
| RouteTable.BlocksElectronOnly | frontend/src/lib/router.tsx:920-950 | Only the three rows with `disabled: !isElectron()` are desktop-only; every other row of the table is not. |
| RouteTable.DesktopOnlyRoutes | frontend/src/lib/router.tsx:920-950 | Outside the desktop shell, a built-in route is disabled exactly when it is `portforwards`, `loadKubeConfig` or `addCluster` (entries 101 to 103). Inside the shell, no built-in route is disabled. |
| SeqUtil.FirstIndexWhere | frontend/src/lib/router.tsx:1034-1036 | `find`: the result is the first index whose element satisfies the predicate; it is none exactly when no element does. |
| SeqUtil.Find | frontend/src/lib/router.tsx:1034-1036 | `find` returns an element that satisfies the predicate, and returns nothing exactly when none does. |
| Text.Interpolate | frontend/src/lib/router.tsx:1075 | `${fullParams.cluster}` prints a present cluster as itself and an `undefined` one as the text `undefined`. |
| Router.FirstKeyMatch | frontend/src/lib/router.tsx:973-985 | The route of the first table key equal to the name ignoring case; none exactly when no key matches. |
| Router.Lookup | frontend/src/lib/router.tsx:984 | Reading the dictionary at a key gives the route of the first entry with exactly that key, and nothing exactly when no entry has it. |
| Router.GetRouteIn | frontend/src/lib/router.tsx:973-985 | The loop remembers the first case-insensitively matching key, or keeps the name, and then reads the table at it. The result is the first case-insensitive match. |
| Router.GetRoute | frontend/src/lib/router.tsx:973-985 | `getRoute` returns the first built-in route whose key equals the name ignoring case. |
| Router.LookupAgreesWithFirstKeyMatch | frontend/src/lib/router.tsx:975-984 | Reading the table at the first matching key gives the first match. With no matching key, reading it at the name itself gives nothing. |
| Router.FirstKeyMatchIgnoresCase | frontend/src/lib/router.tsx:976 | Two names that lower-case alike find the same route. |
| Router.SettingsClusterIsBuiltIn | frontend/src/lib/router.tsx:858-878 | `settingsCluster` is a built-in key, so it resolves whatever the store holds. |
| Router.GetRouteUseClusterURLAsWritten | frontend/src/lib/router.tsx:994-1004 | As written: an explicit `useClusterURL` wins. Otherwise a set `noCluster` is returned unchanged. Otherwise the answer is true. |
| Router.GetRouteUseClusterURL | frontend/src/lib/router.tsx:994-1004 | Corrected: an explicit `useClusterURL` wins. Otherwise a set `noCluster` is negated, as its documentation intends. Otherwise the answer is true. |
| Router.UseClusterURLReadingsDifferOnlyOnNoCluster | frontend/src/lib/router.tsx:995-998 | The two readings differ exactly on routes that set `noCluster` without `useClusterURL`, which are the routes that print the deprecation warning. |
| Router.BuiltInRoutesAgreeOnUseClusterURL | frontend/src/lib/router.tsx:162-959 | No built-in route sets `noCluster`. For each of them the two readings agree and no warning is printed. |
| Router.NoClusterTrueGetsClusterURLAsWritten | frontend/src/lib/router.tsx:994-998 | Counterexample: as written, a route declaring only `noCluster: true` uses a cluster URL and its path becomes `prefix("/x")`. Under the intended reading it keeps the bare path `/x`. |
| Router.GetRoutePath | frontend/src/lib/router.tsx:1006-1015 | The catch-all path, and the path of a route that does not use a cluster URL under the given reading, are returned unchanged. Every other path is cluster-prefixed. With `AsWritten` this is line 1010's test. |
| Router.GetRoutePathReadingsAgree | frontend/src/lib/router.tsx:1006-1015 | A route that does not set `noCluster` alone gets the same path under both readings. |
| Router.StoredByName | frontend/src/lib/router.tsx:1031-1036 | The result is the first stored route, in entry order, whose `name` equals the route name ignoring case. It is none exactly when there is no store or no stored name matches. |
| Router.StoredByKey | frontend/src/lib/router.tsx:1038-1041 | A stored route found by its key, ignoring case; none without a store. |
| Router.SpreadParams | frontend/src/lib/router.tsx:1063-1066 | `{selected: undefined, ...params}` keeps every caller parameter and adds `selected` only when it is missing, with the value `undefined`. |
| Router.CreateRouteURL | frontend/src/lib/router.tsx:1028-1080 | The URL is `RouteURL`, the function the other URL lemmas are stated about. It follows the lookup order, the cluster choice, the parameter filling and the `settingsCluster` redirect. Under `AsWritten`, the cluster decision is the program's. The warning flag is set exactly when a route is found by key and not by name. |
| Router.ResolvePrecedence | frontend/src/lib/router.tsx:1050 | `ResolveRoute`'s lookup order: a stored route found by name wins, then one found by key, then a built-in one. Resolution fails exactly when all three fail. |
| Router.ResolveRouteIgnoresCase | frontend/src/lib/router.tsx:1031-1050 | Names that lower-case alike resolve to the same route and print the same deprecation warning. |
| Router.UnknownRouteGivesEmptyURL | frontend/src/lib/router.tsx:1052-1054 | A route that resolves nowhere yields the empty URL. |
| Router.NoClusterGivesRoot | frontend/src/lib/router.tsx:1056-1062 | The URL is `/` for a route that uses a cluster URL under the given reading, requested without a truthy cluster parameter while no cluster is selected. With `AsWritten` this is line 1057's test. |
| Router.ClusterParamFilledOnlyWhenFalsy | frontend/src/lib/router.tsx:1056-1071 | Every other parameter is passed on unchanged, and a truthy `cluster` parameter is never overwritten. A falsy one is replaced by the selected cluster exactly for routes that use a cluster URL under the given reading. With `AsWritten` this is line 1057's test. |
| Router.SettingsClusterRedirects | frontend/src/lib/router.tsx:1073-1076 | With a non-empty cluster parameter, `settingsCluster` gives `/settings/cluster?c=<cluster>` whatever the store holds. |
| Router.SettingsClusterRedirectIsCaseSensitive | frontend/src/lib/router.tsx:1073-1079 | Another spelling of `settingsCluster` resolves to the same route, but its URL comes from `generatePath` instead of the redirect. |
| Router.RouteURLReadingsAgree | frontend/src/lib/router.tsx:1050-1079 | When the resolved route does not set `noCluster` alone, both readings build the same URL. |
| Router.BuiltInRouteURLsAgree | frontend/src/lib/router.tsx:1050-1079 | Without stored routes, both readings build the same URL for every route name. |
| Router.NoClusterTrueRouteURLAsWritten | frontend/src/lib/router.tsx:1056-1061 | Counterexample: take a stored route `{path: '/x', noCluster: true}`, asked for by its key, with no cluster parameter and no cluster selected. The program returns `/`, while the intended reading builds `generatePath('/x', {selected: undefined})`. |
| CronJobDetails.DefaultJobNameShape | frontend/src/components/cronjob/Details.tsx:56-60 | `DefaultJobName`, the default name, is the CronJob name cut to min(length, max(0, 63 - suffix length)), followed by the suffix. |
| CronJobDetails.DefaultJobNameFits | frontend/src/components/cronjob/Details.tsx:49-60 | The default name ends with the suffix and starts with a prefix of the CronJob name. It is at most 63 characters whenever the suffix fits, exactly 63 characters when the name had to be cut, and the whole name plus the suffix when that fits. |
| CronJobDetails.SpawnOwnerReference | frontend/src/components/cronjob/Details.tsx:75-84 | The owner reference is a blocking controller reference carrying the CronJob's kind, apiVersion, name and uid. |
| CronJobDetails.SpawnJobDialog.constructor | frontend/src/components/cronjob/Details.tsx:51-60 | The dialog opens on the default name built from the CronJob name and the spawn suffix. |
| CronJobDetails.SpawnJobDialog.SetJobName | frontend/src/components/cronjob/Details.tsx:120-122 | Editing the field replaces the Job name. |
| CronJobDetails.SpawnJobDialog.BuildJob | frontend/src/components/cronjob/Details.tsx:62-85 | `SpawnedFrom`: the Job is the template with kind `Job`, apiVersion `batch/v1`, the CronJob's namespace and the dialog's name. `cronjob.kubernetes.io/instantiate: manual` is added to the existing annotations. It gets the owner reference exactly when the raw CronJob is known, and keeps the template's spec and other metadata. |
| CronJobDetails.SpawnJobDialog.HandleSpawn | frontend/src/components/cronjob/Details.tsx:62-100 | Spawning closes the dialog and leaves the pending-suspend flag alone. It hands over a Job that satisfies `SpawnedFrom` for the CronJob and the dialog's name. |
| CronJobDetails.FilterOwned | frontend/src/components/cronjob/Details.tsx:154-160 | The kept Jobs are exactly the listed Jobs with an owner reference of kind `CronJob` and the CronJob's name. |
| CronJobDetails.OwnedJobs | frontend/src/components/cronjob/Details.tsx:154-160 | `ownedJobs` is empty while the list is missing, and the owned Jobs of the list otherwise. |
| CronJobDetails.FilterOwnedAppend | frontend/src/components/cronjob/Details.tsx:156-158 | The filter keeps list order: filtering a concatenation concatenates the filtered parts. |
| CronJobDetails.FilterOwnedIdempotent | frontend/src/components/cronjob/Details.tsx:156-158 | Filtering the owned Jobs again changes nothing. |
| CronJobDetails.SpawnedJobIsOwned | frontend/src/components/cronjob/Details.tsx:74-85 | When the raw CronJob is known, a Job spawned from it passes the owned-Jobs filter exactly when the raw object's kind is `CronJob`. |
| CronJobDetails.ButtonAction | frontend/src/components/cronjob/Details.tsx:216-218 | The button offers Resume exactly when `spec.suspend` is true. |
| CronJobDetails.RequestedSuspend | frontend/src/components/cronjob/Details.tsx:217 | The button asks for `suspend: true` exactly when the CronJob is not suspended, and an unset value counts as not suspended. |
| CronJobDetails.ActionMatchesRequest | frontend/src/components/cronjob/Details.tsx:216-218 | Resume requests `false` and Suspend requests `true`. |
| CronJobDetails.Patched | frontend/src/components/cronjob/Details.tsx:166 | The merge patch changes only `spec.suspend`. |
| CronJobDetails.ToggleTwiceRestores | frontend/src/components/cronjob/Details.tsx:217 | Two successful presses restore a CronJob whose `spec.suspend` is set. |
| CronJobDetails.CronJobPage.constructor | frontend/src/components/cronjob/Details.tsx:150-151 | The page starts with the dialog closed and no pending request. |
| CronJobDetails.CronJobPage.OpenSpawnDialog | frontend/src/components/cronjob/Details.tsx:207 | The Spawn button opens the dialog and changes nothing else. |
| CronJobDetails.CronJobPage.CloseSpawnDialog | frontend/src/components/cronjob/Details.tsx:211 | Closing the dialog changes nothing else. |
| CronJobDetails.CronJobPage.ApplySuspend | frontend/src/components/cronjob/Details.tsx:162-166 | `applySuspend` marks the request as pending and produces the patch `{spec: {suspend}}`. |
| CronJobDetails.CronJobPage.PressSuspendButton | frontend/src/components/cronjob/Details.tsx:214-220 | A disabled button, meaning one with a request pending, does nothing. An enabled one marks the request pending and asks for the negation of `spec.suspend`. |
| CronJobDetails.CronJobPage.PatchSettled | frontend/src/components/cronjob/Details.tsx:166 | When the patch settles (`finally`), the button is enabled again. |
| CronJobDetails.CronJobPage.SuspendCancelled | frontend/src/components/cronjob/Details.tsx:168 | A cancelled action enables the button again. |
| CustomResourceList.SelectView | frontend/src/components/crd/CustomResourceList.tsx:40-58 | The loader shows exactly while there is neither a CRD nor an error. The error view shows exactly when an error is set. Otherwise the list of the fetched CRD shows. |
| CustomResourceList.GetValueWithJSONPath | frontend/src/components/crd/CustomResourceList.tsx:116-128 | The value is the text of what the `$`-prefixed path finds, and `''` when the query throws or finds nothing. |
| CustomResourceList.PrinterCell | frontend/src/components/crd/CustomResourceList.tsx:168-175 | A cell shows the JSONPath value, formatted as a locale date when the column's type is `date`. |
| CustomResourceList.ThrowingLookupShowsEmpty | frontend/src/components/crd/CustomResourceList.tsx:118-127 | A query that throws leaves a plain cell empty instead of breaking the table. |
| CustomResourceList.LinkParams | frontend/src/components/crd/CustomResourceList.tsx:69-77 | The link carries exactly `crName`, `crd` and `namespace`. The namespace is the resource's own, or `-` when that is unset or empty. |
| CustomResourceList.ColumnsFromSpec | frontend/src/components/crd/CustomResourceList.tsx:152-156 | The printer columns come from the version named like the main API version, and are empty when no version matches. |
| CustomResourceList.ToColumn | frontend/src/components/crd/CustomResourceList.tsx:166-176 | A printer column keeps its name as the label and its JSONPath. It is formatted as a date exactly when its type is `date`. |
| CustomResourceList.ExtraColumns | frontend/src/components/crd/CustomResourceList.tsx:157-177 | The columns shown are exactly the entries whose path is not the creation timestamp, each labelled from its entry. |
| CustomResourceList.ExtraColumnsAppend | frontend/src/components/crd/CustomResourceList.tsx:158-177 | Column order follows entry order: the columns of a concatenation are the concatenated columns. |
| CustomResourceList.AdditionalPrinterCols | frontend/src/components/crd/CustomResourceList.tsx:151-180 | The loop, with its `continue` on the creation timestamp, produces exactly the shown columns of the main version. |
| CustomResourceList.DisplayColumns | frontend/src/components/crd/CustomResourceList.tsx:182-198 | The columns are the name, the printer columns in order and then age. For a namespaced-scope CRD, `namespace` is inserted at position 1. Nothing else is added. |
| CustomResourceList.CustomResourceListTable | frontend/src/components/crd/CustomResourceList.tsx:135-210 | There is no table without a resource class. Otherwise the list shows the title (default `''`) and hides the namespace filter exactly for non-namespaced CRDs. Its columns are exactly: name, `namespace` for a namespaced-scope CRD, the printer columns of the main version in order, then age. |
| GatewayDetails.MakeStatusLabel | frontend/src/components/gateway/GatewayDetails.tsx:41-52 | The label text is the condition type. An `Available` condition is a success exactly when its status is `True` and an error otherwise. Every other condition gets a plain label. |
| GatewayDetails.LabelsOf | frontend/src/components/gateway/GatewayDetails.tsx:72 | There is one label per condition, in condition order. |
| GatewayDetails.ListenerRows | frontend/src/components/gateway/GatewayDetails.tsx:53-75 | Five rows: the highlighted listener name, hostname, port, protocol and the condition labels. The labels are missing exactly when there is no status. |
| GatewayDetails.SuccessLabelsAreAvailable | frontend/src/components/gateway/GatewayDetails.tsx:41-46 | A listener's label is a success exactly for an `Available: True` condition. |
| GatewayDetails.ListenersSection | frontend/src/components/gateway/GatewayDetails.tsx:133-144 | "No data" shows exactly when there are no listeners. Otherwise there is one table per listener, in order, each paired with the status looked up by that listener's name. |
| GatewayDetails.AddressesData | frontend/src/components/gateway/GatewayDetails.tsx:123 | The Addresses table lists the Gateway's addresses, and none when it reports none. |
| GatewayDetails.ClassNameValue | frontend/src/components/gateway/GatewayDetails.tsx:91-101 | The Class Name entry is a link to the `gatewayclass` route with `name` set, exactly when the class name is set and non-empty. |
| GatewayDetails.ExtraSections | frontend/src/components/gateway/GatewayDetails.tsx:105-157 | The extra sections are addresses, listeners and conditions, in that order and with their ids. |
| Links.CustomResourceLinkResolves | frontend/src/components/crd/CustomResourceList.tsx:69-77 | The `customresource` route of a resource's name link is always found, so its URL is never the empty unknown-route URL. |
| Links.GatewayClassLinkResolves | frontend/src/components/gateway/GatewayDetails.tsx:93-97 | The `gatewayclass` route of the Class Name link is always found. |

## Left out

- Rendering is not modelled: JSX, Material UI components, translations (`t(...)`) and styling. Rows and labels are modelled by their content, and translated row names by a fixed tag.
- `uniqueString()` reads the clock and a random number. Its result is the `unique` parameter.
- Side effects are left out:
  - The HTTP calls (`apply`, `patch`), the Redux dispatch of `clusterAction` and its toast messages are not modelled. The model returns the Job and the patch that would be sent.
  - `onClose` is modelled as closing the page's dialog.
- Console output is left out, except the `createRouteURL` deprecation warning, which is the `warned` result. The `noCluster` warning is the `WarnsNoClusterDeprecated` predicate.
- `isElectron()` is an input of `RouteTable.Disabled`. The table records which routes are desktop-only. Route registration, which skips disabled routes, is not modelled.
- The React component attached to each route is left out.
- `toLowerCase` is modelled on ASCII letters only. JavaScript also lower-cases other Unicode letters.
- String lengths count Dafny characters, where JavaScript counts UTF-16 code units. They differ only outside the Basic Multilingual Plane.
- Inherited object properties are left out. `defaultRoutes[routeKey]` reads inherited properties such as `constructor` for a name that matches no route, and the model returns nothing there.
- `RouteURLProps` values are typed `any` in the source; the model takes them as strings. The value `null` is not modelled.
- `_.cloneDeep` and the in-place updates of the cloned template are captured by value semantics. The template itself is never changed.
- `localeDate`, `JSONPath`, `getClusterPrefixedPath`, `generatePath`, `getClusterPathParam`, `getListernerStatusByName`, `getAddresses`, `getMainAPIGroup` and `makeCRClass` are not part of this model. They enter as parameters or as fields of the CRD.
- The Gateway page's conditions table (`ConditionsTable`) and the details grid around each page are not part of this model.
- The CronJob page's Schedule, Suspend, Starting deadline and Last Schedule entries are not modelled. They are formatting of fields through helpers outside the core.
- `frontend/src/components/App/Layout.tsx`, `frontend/src/components/resourceMap/KubeObjectGlance/ServiceGlance.tsx` and `frontend/src/components/resourceMap/edges/KubeRelationEdge.tsx` are not part of this model. They are page layout, a glance card and a graph edge, built from rendering components, with no logic of the modelled core.
- GetRoutePath: follows the program only under `AsWritten`. Under `Intended`, a route that sets `noCluster` alone gets the opposite prefixing decision from the program (`Router.NoClusterTrueGetsClusterURLAsWritten`).
- CreateRouteURL: follows the program only under `AsWritten`. Under `Intended`, a route that sets `noCluster` alone gets the opposite `/` and cluster-filling decisions (`Router.NoClusterTrueRouteURLAsWritten`). The two readings agree for every other route (`Router.RouteURLReadingsAgree`).
- NoClusterGivesRoot: describes the program only when `reading` is `AsWritten`.
- ClusterParamFilledOnlyWhenFalsy: describes the program only when `reading` is `AsWritten`.
- Links.CustomResourceLinkResolves: states that the route is found, not which entry is found. Proving that no earlier key lower-cases to the same name would need the lower-cased form of every key in the table.
- Links.GatewayClassLinkResolves: states that the route is found, not which entry is found, for the same reason.

## Findings

| source | as written | input that shows it | evidently intended | confidence | as-written member | corrected member |
|---|---|---|---|---|---|---|
| frontend/src/lib/router.tsx:994-998 | With `useClusterURL` unset, `getRouteUseClusterURL` returns `route.noCluster` itself. | A route `{path: '/x', noCluster: true}` gets a cluster-prefixed path, although `noCluster` is documented as "this route does *not* need a cluster prefix". | Return `!route.noCluster`. | not executed | Router.GetRouteUseClusterURLAsWritten, Router.NoClusterTrueGetsClusterURLAsWritten, Router.NoClusterTrueRouteURLAsWritten | Router.GetRouteUseClusterURL |

`GetRoutePath` and `CreateRouteURL` take the reading as a parameter:

- `AsWritten` models the program.
- `Intended` is the corrected behaviour.

`Router.NoClusterTrueRouteURLAsWritten` shows the two readings giving different URLs. The following lemmas show they agree everywhere else:

- `Router.BuiltInRoutesAgreeOnUseClusterURL`
- `Router.RouteURLReadingsAgree`
- `Router.BuiltInRouteURLsAgree`

Only routes registered by plugins with the deprecated field alone are affected.
