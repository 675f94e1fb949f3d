/*
 * The sidecar injection policy of pilot/platform/kube/inject/inject.go:
 * the image names, the validation and defaulting of the initializer
 * configuration once its ConfigMap has been fetched, the injectRequired
 * decision, and what intoObject does to a workload it injects.
 *
 * Strings are sequences of characters. Fetching the ConfigMap, parsing its
 * YAML and rendering the sidecar template are foreign code: their results
 * are parameters.
 */
module Inject {
  import opened Common

  /** Per-workload annotations. */
  const POLICY_ANNOTATION: string := "sidecar.istio.io/inject"
  const STATUS_ANNOTATION: string := "sidecar.istio.io/status"

  /** InjectionPolicy is a Go string type; these are its two meaningful values. */
  const POLICY_DISABLED: string := "disabled"
  const POLICY_ENABLED: string := "enabled"
  const DEFAULT_POLICY: string := POLICY_ENABLED

  const DEFAULT_SIDECAR_PROXY_UID: int := 1337
  const DEFAULT_IMAGE_PULL_POLICY: string := "IfNotPresent"
  const DEFAULT_INITIALIZER_NAME: string := "sidecar.initializer.istio.io"
  const INITIALIZER_CONFIG_MAP_KEY: string := "config"

  /** v1.NamespaceAll: the empty name stands for every namespace. */
  const NAMESPACE_ALL: string := ""

  // ---------------------------------------------------------------------
  // Image names

  /** The init image: the hub, "/proxy_init:", the tag; the debug flag is ignored. */
  function InitImageName(hub: string, tag: string, debug: bool): string
  {
    hub + "/proxy_init:" + tag
  }

  /** The proxy image: "/proxy_debug:" between hub and tag when debugging, else "/proxy:". */
  function ProxyImageName(hub: string, tag: string, debug: bool): string
  {
    if debug then hub + "/proxy_debug:" + tag else hub + "/proxy:" + tag
  }

  /** Both names are the hub, a fixed infix and the tag, in that order. */
  lemma ImageNameLayout(hub: string, tag: string, debug: bool)
    ensures var r := InitImageName(hub, tag, debug);
      && |r| == |hub| + 12 + |tag|
      && r[..|hub|] == hub && r[|hub|..|hub| + 12] == "/proxy_init:" && r[|hub| + 12..] == tag
    ensures var r := ProxyImageName(hub, tag, debug);
      var infix := if debug then "/proxy_debug:" else "/proxy:";
      && |r| == |hub| + |infix| + |tag|
      && r[..|hub|] == hub && r[|hub|..|hub| + |infix|] == infix && r[|hub| + |infix|..] == tag
  {
  }

  /** The three image names built from one hub and tag are pairwise different. */
  lemma ImageNamesDistinct(hub: string, tag: string, debug: bool)
    ensures InitImageName(hub, tag, debug) == InitImageName(hub, tag, !debug)
    ensures ProxyImageName(hub, tag, true) != ProxyImageName(hub, tag, false)
    ensures InitImageName(hub, tag, debug) != ProxyImageName(hub, tag, true)
    ensures InitImageName(hub, tag, debug) != ProxyImageName(hub, tag, false)
  {
    var init := InitImageName(hub, tag, debug);
    var debugProxy := ProxyImageName(hub, tag, true);
    var proxy := ProxyImageName(hub, tag, false);
    assert |init| == |hub| + |tag| + 12;
    assert |debugProxy| == |hub| + |tag| + 13;
    assert |proxy| == |hub| + |tag| + 7;
  }

  // ---------------------------------------------------------------------
  // Configuration

  /** The parameters of the sidecar template (Mesh, used only by the template, is left out). */
  datatype Params = Params(
    initImage: string,
    proxyImage: string,
    verbosity: int,
    sidecarProxyUID: int,
    version: string,
    enableCoreDump: bool,
    debugMode: bool,
    imagePullPolicy: string,
    includeIPRanges: string)

  /** The initializer configuration; a nil namespace list is None, an empty one Some([]). */
  datatype Config = Config(
    policy: string,
    includeNamespaces: Option<seq<string>>,
    excludeNamespaces: Option<seq<string>>,
    params: Params,
    initializerName: string)

  datatype ConfigError =
    | FetchFailed(reason: string)       // wait.Poll gave up on the ConfigMap
    | MissingKey(key: string)           // "missing configuration map key"
    | YamlError(reason: string)         // yaml.Unmarshal failed
    | BothNamespaceLists                // "cannot configure both namespaces and excludeNamespaces"
    | ExcludesNamespaceAll              // "cannot configure ExcludeNamespaces as NamespaceAll"

  /** What the defaulting of GetInitializerConfig makes of the parsed template parameters p. */
  ghost predicate ParamsDefaultsOf(p: Params, q: Params, dockerHub: string, version: string)
  {
    && q.initImage == (if p.initImage == "" then InitImageName(dockerHub, version, p.debugMode) else p.initImage)
    && q.proxyImage == (if p.proxyImage == "" then ProxyImageName(dockerHub, version, p.debugMode) else p.proxyImage)
    && q.sidecarProxyUID == (if p.sidecarProxyUID == 0 then DEFAULT_SIDECAR_PROXY_UID else p.sidecarProxyUID)
    && q.imagePullPolicy == (if p.imagePullPolicy == "" then DEFAULT_IMAGE_PULL_POLICY else p.imagePullPolicy)
    && q.verbosity == p.verbosity
    && q.version == p.version
    && q.enableCoreDump == p.enableCoreDump
    && q.debugMode == p.debugMode
    && q.includeIPRanges == p.includeIPRanges
  }

  /** What the defaulting of GetInitializerConfig makes of a parsed configuration c. */
  ghost predicate DefaultsOf(c: Config, d: Config, dockerHub: string, version: string)
  {
    && d.includeNamespaces == (if c.includeNamespaces.None? then Some([NAMESPACE_ALL]) else c.includeNamespaces)
    && d.excludeNamespaces == c.excludeNamespaces
    && d.policy == (if c.policy == POLICY_DISABLED || c.policy == POLICY_ENABLED then c.policy else DEFAULT_POLICY)
    && ParamsDefaultsOf(c.params, d.params, dockerHub, version)
    && d.initializerName == (if c.initializerName == "" then DEFAULT_INITIALIZER_NAME else c.initializerName)
  }

  /** A configuration every field of which has a usable value. */
  ghost predicate Usable(d: Config)
  {
    && (d.policy == POLICY_DISABLED || d.policy == POLICY_ENABLED)
    && d.includeNamespaces.Some?
    && (d.excludeNamespaces.Some? ==> NAMESPACE_ALL !in d.excludeNamespaces.value)
    && d.params.initImage != "" && d.params.proxyImage != ""
    && d.params.sidecarProxyUID != 0
    && d.params.imagePullPolicy != ""
    && d.initializerName != ""
  }

  /**
   * GetInitializerConfig after the fetch: the "config" entry of the
   * ConfigMap's data, parsed by `unmarshal` (yaml.Unmarshal into a zero
   * Config), then checked and defaulted field by field. The docker hub and
   * version come from version.Info.
   */
  method GetInitializerConfig(fetched: Result<map<string, string>, string>,
                              unmarshal: string -> Result<Config, string>,
                              dockerHub: string, version: string)
    returns (r: Result<Config, ConfigError>)
    ensures fetched.Err? ==> r == Err(FetchFailed(fetched.error))
    ensures fetched.Ok? && INITIALIZER_CONFIG_MAP_KEY !in fetched.value
            ==> r == Err(MissingKey(INITIALIZER_CONFIG_MAP_KEY))
    ensures fetched.Ok? && INITIALIZER_CONFIG_MAP_KEY in fetched.value ==>
              var parsed := unmarshal(fetched.value[INITIALIZER_CONFIG_MAP_KEY]);
              && (parsed.Err? ==> r == Err(YamlError(parsed.error)))
              && (parsed.Ok? ==>
                    var c := parsed.value;
                    if c.includeNamespaces.Some? && c.excludeNamespaces.Some? then r == Err(BothNamespaceLists)
                    else if c.excludeNamespaces.Some? && NAMESPACE_ALL in c.excludeNamespaces.value
                    then r == Err(ExcludesNamespaceAll)
                    else r.Ok? && DefaultsOf(c, r.value, dockerHub, version))
    ensures r.Ok? ==> Usable(r.value)
  {
    if fetched.Err? {
      return Err(FetchFailed(fetched.error));
    }
    var data := fetched.value;
    if INITIALIZER_CONFIG_MAP_KEY !in data {
      return Err(MissingKey(INITIALIZER_CONFIG_MAP_KEY));
    }
    var parsed := unmarshal(data[INITIALIZER_CONFIG_MAP_KEY]);
    if parsed.Err? {
      return Err(YamlError(parsed.error));
    }
    var c := parsed.value;
    ghost var c0 := c;

    if c.includeNamespaces.Some? && c.excludeNamespaces.Some? {
      return Err(BothNamespaceLists);
    }
    if c.includeNamespaces.None? {
      c := c.(includeNamespaces := Some([NAMESPACE_ALL]));
    }
    if c.excludeNamespaces.Some? {
      var excluded := c.excludeNamespaces.value;
      for t := 0 to |excluded|
        invariant NAMESPACE_ALL !in excluded[..t]
      {
        if excluded[t] == NAMESPACE_ALL {
          return Err(ExcludesNamespaceAll);
        }
      }
      assert excluded[..|excluded|] == excluded;
    }

    c := ApplyDefaults(c, dockerHub, version);
    DefaultsUsable(c0, c, dockerHub, version);
    return Ok(c);
  }

  /** The "safe defaults" of GetInitializerConfig, one field at a time. */
  method ApplyDefaults(c0: Config, dockerHub: string, version: string) returns (c: Config)
    requires c0.includeNamespaces.Some?
    ensures DefaultsOf(c0, c, dockerHub, version)
  {
    c := c0;
    if c.policy != POLICY_DISABLED && c.policy != POLICY_ENABLED {
      c := c.(policy := DEFAULT_POLICY);
    }
    var params := DefaultParams(c.params, dockerHub, version);
    c := c.(params := params);
    if c.initializerName == "" {
      c := c.(initializerName := DEFAULT_INITIALIZER_NAME);
    }
  }

  /** The defaults of the template parameters, one field at a time. */
  method DefaultParams(p: Params, dockerHub: string, version: string) returns (q: Params)
    ensures ParamsDefaultsOf(p, q, dockerHub, version)
  {
    q := p;
    if q.initImage == "" {
      q := q.(initImage := InitImageName(dockerHub, version, q.debugMode));
    }
    if q.proxyImage == "" {
      q := q.(proxyImage := ProxyImageName(dockerHub, version, q.debugMode));
    }
    if q.sidecarProxyUID == 0 {
      q := q.(sidecarProxyUID := DEFAULT_SIDECAR_PROXY_UID);
    }
    if q.imagePullPolicy == "" {
      q := q.(imagePullPolicy := DEFAULT_IMAGE_PULL_POLICY);
    }
  }

  /** A validated configuration comes out of the defaulting usable. */
  lemma DefaultsUsable(c: Config, d: Config, hub: string, version: string)
    requires !(c.includeNamespaces.Some? && c.excludeNamespaces.Some?)
    requires c.excludeNamespaces.Some? ==> NAMESPACE_ALL !in c.excludeNamespaces.value
    requires DefaultsOf(c, d, hub, version)
    ensures Usable(d)
  {
    ImageNamesNonEmpty(hub, version, c.params.debugMode);
  }

  lemma ImageNamesNonEmpty(hub: string, tag: string, debug: bool)
    ensures InitImageName(hub, tag, debug) != "" && ProxyImageName(hub, tag, debug) != ""
  {
    assert |InitImageName(hub, tag, debug)| >= 12;
    assert |ProxyImageName(hub, tag, debug)| >= 7;
  }

  /** Defaulting leaves a configuration whose fields are already set as it is. */
  lemma DefaultsKeepSetValues(c: Config, d: Config, hub: string, version: string)
    requires Usable(c) && DefaultsOf(c, d, hub, version)
    ensures d == c
  {
  }

  // ---------------------------------------------------------------------
  // injectRequired

  /**
   * The labelled search over the includes list: it stops at the first entry
   * that is NamespaceAll or the object's namespace.
   */
  function IncludeSearch(includes: seq<string>, namespace: string): bool
  {
    if includes == [] then false
    else if includes[0] == NAMESPACE_ALL then true
    else if namespace == includes[0] then true
    else IncludeSearch(includes[1..], namespace)
  }

  /** The search finds the namespace exactly when the list names it or holds NamespaceAll. */
  lemma {:induction false} IncludeSearchIsMembership(includes: seq<string>, namespace: string)
    ensures IncludeSearch(includes, namespace) <==> NAMESPACE_ALL in includes || namespace in includes
  {
    if includes != [] {
      IncludeSearchIsMembership(includes[1..], namespace);
      assert includes == [includes[0]] + includes[1..];
    }
  }

  /** strings.ToLower on the ASCII letters. */
  function ToLower(s: string): (r: string)
    ensures |r| == |s|
    ensures forall k :: 0 <= k < |s| ==> r[k] == if 'A' <= s[k] <= 'Z' then s[k] - 'A' + 'a' else s[k]
  {
    if s == [] then [] else [if 'A' <= s[0] <= 'Z' then s[0] - 'A' + 'a' else s[0]] + ToLower(s[1..])
  }

  /** The subset of YAML 1.1's true values the inject annotation accepts. */
  predicate IsYamlTrue(value: string)
  {
    ToLower(value) in ["y", "yes", "true", "on"]
  }

  /**
   * injectRequired for an object in `namespace` with `annotations` (a nil
   * map reads like an empty one).
   */
  function InjectRequired(includes: seq<string>, ignored: seq<string>, excluded: seq<string>,
                          namespacePolicy: string, namespace: string, annotations: map<string, string>): bool
  {
    if namespace in ignored then false
    else if namespace in excluded then false
    else if !IncludeSearch(includes, namespace) then false
    else
      var useDefault := POLICY_ANNOTATION !in annotations;
      var inject := !useDefault && IsYamlTrue(annotations[POLICY_ANNOTATION]);
      var required :=
        if namespacePolicy == POLICY_DISABLED then (if useDefault then false else inject)
        else if namespacePolicy == POLICY_ENABLED then (if useDefault then true else inject)
        else false;
      required && STATUS_ANNOTATION !in annotations
  }

  /** The whole decision, stated as one condition per step of the source. */
  lemma InjectRequiredIff(includes: seq<string>, ignored: seq<string>, excluded: seq<string>,
                          namespacePolicy: string, namespace: string, annotations: map<string, string>)
    ensures InjectRequired(includes, ignored, excluded, namespacePolicy, namespace, annotations)
      <==> && namespace !in ignored
           && namespace !in excluded
           && (NAMESPACE_ALL in includes || namespace in includes)
           && (namespacePolicy == POLICY_DISABLED || namespacePolicy == POLICY_ENABLED)
           && (if POLICY_ANNOTATION in annotations then IsYamlTrue(annotations[POLICY_ANNOTATION])
               else namespacePolicy == POLICY_ENABLED)
           && STATUS_ANNOTATION !in annotations
  {
    IncludeSearchIsMembership(includes, namespace);
  }

  /** An object that carries the status annotation is never injected again. */
  lemma NeverInjectedTwice(includes: seq<string>, ignored: seq<string>, excluded: seq<string>,
                           namespacePolicy: string, namespace: string, annotations: map<string, string>)
    requires STATUS_ANNOTATION in annotations
    ensures !InjectRequired(includes, ignored, excluded, namespacePolicy, namespace, annotations)
  {
  }

  /** The annotation value is compared without regard to case. */
  lemma {:induction false} ToLowerIdempotent(s: string)
    ensures ToLower(ToLower(s)) == ToLower(s)
  {
    var once := ToLower(s);
    var twice := ToLower(once);
    assert forall k :: 0 <= k < |s| ==> twice[k] == once[k];
  }

  lemma YamlTrueIgnoresCase(value: string)
    ensures IsYamlTrue(value) <==> IsYamlTrue(ToLower(value))
  {
    ToLowerIdempotent(value);
  }

  // ---------------------------------------------------------------------
  // intoObject

  datatype Container = Container(name: string, image: string)
  datatype Volume = Volume(name: string)

  datatype PodSpec = PodSpec(
    hostNetwork: bool,
    initContainers: seq<Container>,
    containers: seq<Container>,
    volumes: seq<Volume>)

  /** The metadata intoObject and initialize look at; a nil Initializers is None. */
  datatype ObjectMeta = ObjectMeta(
    namespace: string,
    name: string,
    annotations: map<string, string>,
    initializers: Option<seq<string>>)

  /**
   * A workload: its own metadata and its pod template (Spec.Template, or
   * Spec.JobTemplate.Spec.Template for a CronJob).
   */
  datatype Workload = Workload(meta: ObjectMeta, templateMeta: ObjectMeta, spec: PodSpec)

  /** The containers and volumes the rendered sidecar template yields. */
  datatype SidecarConfig = SidecarConfig(
    initContainers: seq<Container>,
    containers: seq<Container>,
    volumes: seq<Volume>)

  function StatusValue(version: string): string
  {
    "injected-version-" + version
  }

  /** injectIntoSpec: the sidecar's containers and volumes after the existing ones. */
  function InjectIntoSpec(spec: PodSpec, sc: SidecarConfig): (r: PodSpec)
    ensures r.hostNetwork == spec.hostNetwork
    ensures |r.initContainers| == |spec.initContainers| + |sc.initContainers|
    ensures r.initContainers[..|spec.initContainers|] == spec.initContainers
    ensures r.initContainers[|spec.initContainers|..] == sc.initContainers
    ensures |r.containers| == |spec.containers| + |sc.containers|
    ensures r.containers[..|spec.containers|] == spec.containers
    ensures r.containers[|spec.containers|..] == sc.containers
    ensures |r.volumes| == |spec.volumes| + |sc.volumes|
    ensures r.volumes[..|spec.volumes|] == spec.volumes
    ensures r.volumes[|spec.volumes|..] == sc.volumes
  {
    PodSpec(spec.hostNetwork,
            spec.initContainers + sc.initContainers,
            spec.containers + sc.containers,
            spec.volumes + sc.volumes)
  }

  /** A nil namespace list ranges like an empty slice. */
  function Listed(names: Option<seq<string>>): seq<string>
  {
    if names.Some? then names.value else []
  }

  function Annotate(m: ObjectMeta, version: string): ObjectMeta
  {
    m.(annotations := m.annotations[STATUS_ANNOTATION := StatusValue(version)])
  }

  /**
   * intoObject on a deep copy of `in`: unchanged when the policy says skip
   * or the pod uses the host network, otherwise both metadata get the
   * status annotation and the pod spec the sidecar. `sc` is the template
   * rendered for this workload. A nil include list ranges as an empty one,
   * so such a configuration injects nothing.
   */
  function IntoObject(c: Config, ignored: seq<string>, obj: Workload, sc: SidecarConfig): (out: Workload)
  {
    var included := Listed(c.includeNamespaces);
    var excluded := Listed(c.excludeNamespaces);
    if !InjectRequired(included, ignored, excluded, c.policy, obj.meta.namespace, obj.meta.annotations)
    then obj
    else if obj.spec.hostNetwork then obj
    else Workload(Annotate(obj.meta, c.params.version),
                  Annotate(obj.templateMeta, c.params.version),
                  InjectIntoSpec(obj.spec, sc))
  }

  /** Whether IntoObject injects: the policy allows it and the pod is not on the host network. */
  predicate Injects(c: Config, ignored: seq<string>, obj: Workload)
  {
    var included := Listed(c.includeNamespaces);
    var excluded := Listed(c.excludeNamespaces);
    InjectRequired(included, ignored, excluded, c.policy, obj.meta.namespace, obj.meta.annotations)
    && !obj.spec.hostNetwork
  }

  /** What injection changes and what it keeps. */
  lemma IntoObjectEffect(c: Config, ignored: seq<string>, obj: Workload, sc: SidecarConfig)
    ensures var out := IntoObject(c, ignored, obj, sc);
      && (!Injects(c, ignored, obj) ==> out == obj)
      && (Injects(c, ignored, obj) ==>
            && out.meta.annotations[STATUS_ANNOTATION] == StatusValue(c.params.version)
            && out.templateMeta.annotations[STATUS_ANNOTATION] == StatusValue(c.params.version)
            && (forall k :: k in obj.meta.annotations && k != STATUS_ANNOTATION
                  ==> k in out.meta.annotations && out.meta.annotations[k] == obj.meta.annotations[k])
            && out.meta.annotations.Keys == obj.meta.annotations.Keys + {STATUS_ANNOTATION}
            && out.meta.namespace == obj.meta.namespace && out.meta.name == obj.meta.name
            && out.meta.initializers == obj.meta.initializers
            && out.spec.initContainers == obj.spec.initContainers + sc.initContainers
            && out.spec.containers == obj.spec.containers + sc.containers
            && out.spec.volumes == obj.spec.volumes + sc.volumes)
  {
  }

  /** A configuration with no include list injects nothing: the search over it never succeeds. */
  lemma NilIncludeInjectsNothing(c: Config, ignored: seq<string>, obj: Workload, sc: SidecarConfig)
    requires c.includeNamespaces.None?
    ensures !Injects(c, ignored, obj)
    ensures IntoObject(c, ignored, obj, sc) == obj
  {
  }

  /** Injecting an injected workload changes nothing: the sidecar is added at most once. */
  lemma IntoObjectIdempotent(c: Config, ignored: seq<string>, obj: Workload, sc: SidecarConfig, sc': SidecarConfig)
    ensures var out := IntoObject(c, ignored, obj, sc);
      IntoObject(c, ignored, out, sc') == out
  {
    var out := IntoObject(c, ignored, obj, sc);
    if Injects(c, ignored, obj) {
      assert STATUS_ANNOTATION in out.meta.annotations;
      var included := Listed(c.includeNamespaces);
      var excluded := Listed(c.excludeNamespaces);
      NeverInjectedTwice(included, ignored, excluded, c.policy, out.meta.namespace, out.meta.annotations);
    }
  }
}
