/*
 * Initializer.initialize of pilot/platform/kube/inject/initializer.go: a
 * workload is handled only when this initializer is at the head of its
 * pending list; it is then injected (Inject.IntoObject) and the head of
 * the list is removed, in place, before the patch is built and sent.
 *
 * The scheme lookups, the JSON marshalling, the strategic-merge patch and
 * the patch request are foreign code; their failures are parameters.
 */
module Initializer {
  import opened Common
  import opened Inject

  /** ignoredNamespaces: kube-system, kube-public and the Istio namespace. */
  function IgnoredNamespaces(istioNamespace: string): (r: seq<string>)
    ensures |r| == 3
    ensures forall n :: n in r <==> n == "kube-system" || n == "kube-public" || n == istioNamespace
  {
    ["kube-system", "kube-public", istioNamespace]
  }

  /** Nothing in the ignored namespaces is ever injected. */
  lemma IgnoredNeverInjected(c: Config, istioNamespace: string, obj: Workload, sc: SidecarConfig)
    requires obj.meta.namespace in IgnoredNamespaces(istioNamespace)
    ensures IntoObject(c, IgnoredNamespaces(istioNamespace), obj, sc) == obj
  {
  }

  /**
   * `append(pending[:0], pending[1:]...)`: the entries after the first move
   * one place down in the same backing array; the slice shrinks by one.
   */
  method RemoveHead(pending: array<string>, n: int) returns (m: int)
    requires 1 <= n <= pending.Length
    modifies pending
    ensures m == n - 1
    ensures pending[..m] == old(pending[1..n])
    ensures pending[m..] == old(pending[m..])
  {
    var k := 0;
    while k < n - 1
      invariant 0 <= k <= n - 1
      invariant forall t :: 0 <= t < k ==> pending[t] == old(pending[t + 1])
      invariant forall t :: k <= t < pending.Length ==> pending[t] == old(pending[t])
    {
      pending[k] := pending[k + 1];
      k := k + 1;
    }
    m := n - 1;
    assert pending[..m] == old(pending[1..n]);
  }

  /** The failures of the foreign calls initialize makes, in the order it makes them. */
  datatype Failures = Failures(
    objectKinds: Option<string>,   // injectScheme.ObjectKinds(in)
    marshalIn: Option<string>,     // json.Marshal(in)
    marshalOut: Option<string>,    // json.Marshal(out)
    newObject: Option<string>,     // injectScheme.New(gvk)
    createPatch: Option<string>,   // strategicpatch.CreateTwoWayMergePatch
    patcher: Option<string>)       // the patch request itself

  /** The pending list of an initialized copy: nil once the last initializer is gone. */
  function WithoutHead(pending: seq<string>): Option<seq<string>>
    requires pending != []
  {
    if |pending| == 1 then None else Some(pending[1..])
  }

  /** This initializer is first on the workload's pending list. */
  predicate SelfAtHead(c: Config, obj: Workload)
  {
    && obj.meta.initializers.Some?
    && obj.meta.initializers.value != []
    && obj.meta.initializers.value[0] == c.initializerName
  }

  /** The workload initialize patches to: injected, and this initializer off the list. */
  function Initialized(c: Config, ignored: seq<string>, obj: Workload, sc: SidecarConfig): Workload
    requires SelfAtHead(c, obj)
  {
    var out := IntoObject(c, ignored, obj, sc);
    out.(meta := out.meta.(initializers := WithoutHead(obj.meta.initializers.value)))
  }

  /**
   * Self-removal: SetInitializers(nil) when this was the last pending
   * initializer, else the in-place shift.
   */
  method RemoveSelf(pending: seq<string>) returns (r: Option<seq<string>>)
    requires pending != []
    ensures r == WithoutHead(pending)
  {
    if |pending| == 1 {
      return None;
    }
    var shared := new string[|pending|](k requires 0 <= k < |pending| => pending[k]);
    assert shared[1..|pending|] == pending[1..];
    var m := RemoveHead(shared, |pending|);
    return Some(shared[..m]);
  }

  /**
   * initialize(in, patcher): `sent` is the object the patch brings the
   * workload to, when a patch is sent, and `err` is what initialize
   * returns.
   */
  method Initialize(c: Config, ignored: seq<string>, obj: Workload, sc: SidecarConfig, fail: Failures)
    returns (sent: Option<Workload>, err: Option<string>)
    ensures fail.objectKinds.Some? ==> sent == None && err == fail.objectKinds
    ensures fail.objectKinds.None? && !SelfAtHead(c, obj) ==> sent == None && err == None
    ensures fail.objectKinds.None? && SelfAtHead(c, obj) ==>
              if fail.marshalIn.Some? then sent == None && err == fail.marshalIn
              else if fail.marshalOut.Some? then sent == None && err == fail.marshalOut
              else if fail.newObject.Some? then sent == None && err == fail.newObject
              else if fail.createPatch.Some? then sent == None && err == fail.createPatch
              else sent == Some(Initialized(c, ignored, obj, sc)) && err == fail.patcher
  {
    if fail.objectKinds.Some? {
      return None, fail.objectKinds;
    }
    if obj.meta.initializers.None? {
      return None, None;
    }
    var pendingInitializers := obj.meta.initializers.value;
    if |pendingInitializers| == 0 {
      return None, None;
    }
    if c.initializerName != pendingInitializers[0] {
      return None, None;
    }

    var out := IntoObject(c, ignored, obj, sc);
    IntoObjectKeepsInitializers(c, ignored, obj, sc);
    var rest := RemoveSelf(out.meta.initializers.value);
    out := out.(meta := out.meta.(initializers := rest));

    if fail.marshalIn.Some? {
      return None, fail.marshalIn;
    }
    if fail.marshalOut.Some? {
      return None, fail.marshalOut;
    }
    if fail.newObject.Some? {
      return None, fail.newObject;
    }
    if fail.createPatch.Some? {
      return None, fail.createPatch;
    }
    return Some(out), fail.patcher;
  }

  /** The patched workload is injected exactly as intoObject says, and only the head of its pending list is gone. */
  lemma InitializedEffect(c: Config, ignored: seq<string>, obj: Workload, sc: SidecarConfig)
    requires SelfAtHead(c, obj)
    ensures var r := Initialized(c, ignored, obj, sc);
      var pending := obj.meta.initializers.value;
      && r.spec == IntoObject(c, ignored, obj, sc).spec
      && r.meta.annotations == IntoObject(c, ignored, obj, sc).meta.annotations
      && r.templateMeta == IntoObject(c, ignored, obj, sc).templateMeta
      && (|pending| == 1 ==> r.meta.initializers.None?)
      && (|pending| > 1 ==> r.meta.initializers == Some(pending[1..]))
  {
  }

  /** intoObject does not touch the pending initializers. */
  lemma IntoObjectKeepsInitializers(c: Config, ignored: seq<string>, obj: Workload, sc: SidecarConfig)
    ensures IntoObject(c, ignored, obj, sc).meta.initializers == obj.meta.initializers
  {
  }
}
