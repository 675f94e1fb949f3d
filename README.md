# Istio core, modelled in Dafny

This project models a slice of the Istio service mesh (Go sources of an
early release) and proves properties of that model:

- **Sidecar injection** (`pilot/platform/kube/inject`). The model covers:
  - the injection policy (namespace include/exclude lists, the
    `sidecar.istio.io/inject` annotation, the injected-status annotation);
  - the defaulting of the initializer configuration;
  - `intoObject`, which appends the sidecar to a workload;
  - the Kubernetes initializer, which injects and then removes itself from
    the pending-initializer list.
- **The Istio CA command** (`security/cmd/istio_ca/main.go`). The model
  covers:
  - the flag defaults and the `NAMESPACE` fallback;
  - the command-line check;
  - the choice between a self-signed CA and one built from files;
  - what is started afterwards, and with which TTLs.
- **The node agent's default configuration** (`security/cmd/node_agent/na/config.go`).
- **The Consul service registry** (`pilot/platform/consul/controller.go`). The
  model covers `Services`, `GetService`, `Instances` and its label/port
  filter, `HostInstances`, and the two operations Consul does not support.
- **The pilot integration driver** (`pilot/test/integration`). The model
  covers:
  - `repeat`;
  - the retry closure of `parallel`;
  - `setAuth`;
  - the test loop of `runTests`;
  - the check matrices of the TCP and auth-exclusion tests;
  - the egress-rule test.
- **The generated Protocol Buffers code** for the spy adapter's
  `InstanceParam` message (`mixer/test/spyAdapter/template/apa/tmpl_instance.pb.go`).
  The model covers varints, `Size`, `MarshalTo`, `Unmarshal`,
  `skipTmplInstance`, `Equal` and the getters.

Each Go file is modelled in its own form:

- Pure decisions are functions with lemmas. Examples: `Inject.InjectRequired`,
  `IstioCa.VerifyOptions`, `TmplInstance.DecodeFrom`.
- Loops are methods with invariants, proved against those functions.
  Examples: `Consul.Instances`, `Driver.Repeat`, `Tcp.MakeChecks`, and the
  byte loops of `TmplInstanceCodec`.
- State that the Go code updates in place is a class:
  - `IstioCa.CliOptions` holds the global `opts`;
  - `TmplInstanceCodec.InstanceParam` holds the message that
    `Unmarshal` fills in;
  - the marshalling buffer is an `array`;
  - the pending-initializer list is an `array` shifted in place.

Go's semantics are written out where they matter:

- uint64 arithmetic is modulo 2^64.
- `int(u)` and `iNdEx + n` wrap in a 64-bit int (`ProtoWire.ToInt`,
  `ProtoWire.WrapInt`), and `int32(wire >> 3)` truncates (`ProtoWire.ToInt32`).
- An out-of-range slice is a `Panic` outcome.
- A missing map key reads as `""`.
- Map iteration order, which Go randomises, is an explicit `order`
  parameter. Properties are proved for every order.
- Fallible collaborators are function parameters returning a `Result`.
  These are the Consul catalog, the Kubernetes API and the CA constructors.

The decoder takes a `Checks` parameter:

- `AsWritten` is the generated code.
- `Hardened` adds the `< 0` index checks that the generated code lacks (see
  Findings).

The round trip and the error lemmas hold for both settings. The absence of
panics holds for `Hardened` only.

Slices and strings are bounded by `ProtoWire.MAX_LEN` = 2^62 bytes, which no
Go slice can reach on a 64-bit platform.

## Model

| member | source | states |
|---|---|---|
| ProtoWire.ToInt | Workbooks/istio/mixer/test/spyAdapter/template/apa/tmpl_instance.pb.go:372-375 | `int(u)` of a uint64 is negative exactly when u is at least 2^63, and is u otherwise |
| ProtoWire.ToInt32 | Workbooks/istio/mixer/test/spyAdapter/template/apa/tmpl_instance.pb.go:344 | `int32(wire >> 3)` lies in the int32 range and keeps values below 2^31 |
| ProtoWire.WrapInt | Workbooks/istio/mixer/test/spyAdapter/template/apa/tmpl_instance.pb.go:376 | an index sum in Go's 64-bit int wraps by 2^64 into [-2^63, 2^63) and is unchanged when it fits |
| ProtoWire.VarintBytes | Workbooks/istio/mixer/test/spyAdapter/template/apa/tmpl_instance.pb.go:240-248 | the bytes encodeVarintTmplInstance writes for v number exactly sovTmplInstance(v) |
| ProtoWire.VarintBytesShape | Workbooks/istio/mixer/test/spyAdapter/template/apa/tmpl_instance.pb.go:240-248 | every written byte but the last has the continuation bit 0x80 set, and the last has it clear |
| ProtoWire.EncodeVarint | Workbooks/istio/mixer/test/spyAdapter/template/apa/tmpl_instance.pb.go:240-248 | writes VarintBytes(v) at offset into the buffer, returns offset + sov(v), and leaves all other bytes alone |
| ProtoWire.Sov | Workbooks/istio/mixer/test/spyAdapter/template/apa/tmpl_instance.pb.go:279-288 | the shifting loop returns VarintSize(x) |
| ProtoWire.VarintSizeBounds | Workbooks/istio/mixer/test/spyAdapter/template/apa/tmpl_instance.pb.go:279-288 | sov(x) is between 1 and 10 for every uint64, and it is 1 exactly when x < 128 |
| ProtoWire.ReadVarint | Workbooks/istio/mixer/test/spyAdapter/template/apa/tmpl_instance.pb.go:330-343 | a decoded varint always fits in a uint64 (the 10th group is truncated as `<< 63` truncates) |
| ProtoWire.ReadVarintAt | Workbooks/istio/mixer/test/spyAdapter/template/apa/tmpl_instance.pb.go:330-343 | the imperative shift-and-or loop returns exactly ReadVarint: the value and the index after it, or the error |
| ProtoWire.ReadVarintAdvances | Workbooks/istio/mixer/test/spyAdapter/template/apa/tmpl_instance.pb.go:330-343 | a successful read consumes between 1 and 10 bytes and stays inside the buffer |
| ProtoWire.ReadVarintErrors | Workbooks/istio/mixer/test/spyAdapter/template/apa/tmpl_instance.pb.go:331-336 | ErrIntOverflow exactly when ten bytes all carry the continuation bit, ErrUnexpectedEOF exactly when the input ends while every byte so far continues, and never a panic |
| ProtoWire.ReadVarintOfEncoded | Workbooks/istio/mixer/test/spyAdapter/template/apa/tmpl_instance.pb.go:240-248 | varint round trip: reading the bytes encodeVarintTmplInstance wrote for v gives v and the index just after them |
| TmplInstance.Encode | Workbooks/istio/mixer/test/spyAdapter/template/apa/tmpl_instance.pb.go:183-238 | definition of the bytes MarshalTo writes for a map order; EncodeLength, UnmarshalMarshal and InstanceParam.MarshalTo are stated with it |
| TmplInstance.SizeOf | Workbooks/istio/mixer/test/spyAdapter/template/apa/tmpl_instance.pb.go:249-277 | definition of what Size returns for a map order; EncodeLength and SizeOrderFree state its properties, and InstanceParam.Size is proved equal to it |
| TmplInstance.DecodeFrom | Workbooks/istio/mixer/test/spyAdapter/template/apa/tmpl_instance.pb.go:324-607 | definition of Unmarshal's field loop; UnmarshalMarshal, the TmplInstanceErrors lemmas and InstanceParam.Unmarshal are stated with it |
| TmplInstance.SetField | Workbooks/istio/mixer/test/spyAdapter/template/apa/tmpl_instance.pb.go:380-381 | assigning one of the four string fields changes that field only |
| TmplInstance.ReadLength | Workbooks/istio/mixer/test/spyAdapter/template/apa/tmpl_instance.pb.go:357-379 | a length prefix that passes the checks starts after its varint and ends inside the input; as written, the end may have wrapped negative |
| TmplInstance.Skip | Workbooks/istio/mixer/test/spyAdapter/template/apa/tmpl_instance.pb.go:608-706 | the length skipTmplInstance returns is an int of at least 1, or, only without the added checks, an index that wrapped below 20 - 2^63 |
| TmplInstance.SkipBytes | Workbooks/istio/mixer/test/spyAdapter/template/apa/tmpl_instance.pb.go:646-666 | wire type 2 in the skipper: `length < 0` is tested after `iNdEx += length`, so a huge length returns a wrapped negative index unless the added check catches it |
| TmplInstance.SkipGroup | Workbooks/istio/mixer/test/spyAdapter/template/apa/tmpl_instance.pb.go:667-695 | a group that is skipped successfully ends after its end-group tag, inside the input |
| TmplInstance.GroupNext | Workbooks/istio/mixer/test/spyAdapter/template/apa/tmpl_instance.pb.go:693 | `start + next` either moves strictly forward or wraps negative |
| TmplInstance.DecodeField | Workbooks/istio/mixer/test/spyAdapter/template/apa/tmpl_instance.pb.go:327-600 | one iteration of the Unmarshal field loop either stops with an error or moves strictly forward inside the input |
| TmplInstanceProofs.EncodeLength | Workbooks/istio/mixer/test/spyAdapter/template/apa/tmpl_instance.pb.go:183-277 | MarshalTo writes exactly Size() bytes when both visit the map in the same order |
| TmplInstanceProofs.SizeOrderFree | Workbooks/istio/mixer/test/spyAdapter/template/apa/tmpl_instance.pb.go:268-275 | Size does not depend on the order in which the map is visited |
| TmplInstanceProofs.UnmarshalMarshalInto | Workbooks/istio/mixer/test/spyAdapter/template/apa/tmpl_instance.pb.go:324-607 | Unmarshal of Marshal(m) into p sets the non-empty strings of m and adds every entry of m's map, keeping the rest of p; it returns no error |
| TmplInstanceProofs.UnmarshalMarshal | Workbooks/istio/mixer/test/spyAdapter/template/apa/tmpl_instance.pb.go:324-607 | round trip: Unmarshal(Marshal(m)) into a zero InstanceParam gives back m, whatever order the map was written in |
| TmplInstanceErrors.TagOverflow | Workbooks/istio/mixer/test/spyAdapter/template/apa/tmpl_instance.pb.go:331-333 | a tag varint with ten continuation bytes gives ErrIntOverflow and leaves m unchanged |
| TmplInstanceErrors.TagTruncated | Workbooks/istio/mixer/test/spyAdapter/template/apa/tmpl_instance.pb.go:334-336 | a tag cut off by the end of the input gives io.ErrUnexpectedEOF |
| TmplInstanceErrors.EndGroupAtTop | Workbooks/istio/mixer/test/spyAdapter/template/apa/tmpl_instance.pb.go:346-348 | wire type 4 at top level is an error |
| TmplInstanceErrors.IllegalFieldNumber | Workbooks/istio/mixer/test/spyAdapter/template/apa/tmpl_instance.pb.go:349-351 | a field number that is 0 or negative as int32 is an illegal tag |
| TmplInstanceErrors.KnownFieldWrongWireType | Workbooks/istio/mixer/test/spyAdapter/template/apa/tmpl_instance.pb.go:354-356 | fields 1 to 4 and the map field with a wire type other than 2 are rejected |
| TmplInstanceErrors.LengthPastEnd | Workbooks/istio/mixer/test/spyAdapter/template/apa/tmpl_instance.pb.go:376-379 | a length that runs past the end of the buffer gives io.ErrUnexpectedEOF |
| TmplInstanceErrors.NegativeLength | Workbooks/istio/mixer/test/spyAdapter/template/apa/tmpl_instance.pb.go:372-375 | a length of 2^63 or more (negative as int) gives ErrInvalidLength |
| TmplInstanceErrors.UnknownFieldKeepsMessage | Workbooks/istio/mixer/test/spyAdapter/template/apa/tmpl_instance.pb.go:587-599 | an unknown field leaves m untouched, and the skipper's error is returned as it is |
| TmplInstanceErrors.SkipIllegalWireType | Workbooks/istio/mixer/test/spyAdapter/template/apa/tmpl_instance.pb.go:701-702 | skipTmplInstance rejects wire types 6 and 7 |
| TmplInstanceErrors.DecodeFromStops | Workbooks/istio/mixer/test/spyAdapter/template/apa/tmpl_instance.pb.go:324-607 | the first error ends Unmarshal, with the fields decoded before it kept |
| TmplInstanceErrors.DecodeFieldOneChange | Workbooks/istio/mixer/test/spyAdapter/template/apa/tmpl_instance.pb.go:353-600 | one field record changes at most one string field or adds one map entry |
| TmplInstanceErrors.DecodeFromKeepsKeys | Workbooks/istio/mixer/test/spyAdapter/template/apa/tmpl_instance.pb.go:585 | Unmarshal never removes a map key m already had |
| TmplInstanceErrors.UnmarshalEmpty | Workbooks/istio/mixer/test/spyAdapter/template/apa/tmpl_instance.pb.go:324-327 | an empty input leaves m as it was, with no error: Unmarshal never resets m |
| TmplInstanceErrors.HardenedNeverPanics | Workbooks/istio/mixer/test/spyAdapter/template/apa/tmpl_instance.pb.go:324-607 | with the added `< 0` checks, no input makes Unmarshal index out of range |
| TmplInstanceErrors.AsWrittenLongStringPanics | Workbooks/istio/mixer/test/spyAdapter/template/apa/tmpl_instance.pb.go:372-380 | the 10-byte input LONG_STRING makes the generated Unmarshal slice with a negative postIndex; the hardened one reports ErrInvalidLength |
| TmplInstanceErrors.AsWrittenLongSkipPanics | Workbooks/istio/mixer/test/spyAdapter/template/apa/tmpl_instance.pb.go:587-599 | the 12-byte input LONG_SKIP makes skipTmplInstance return 2^63 - 1 for an unknown field, `iNdEx + skippy` wraps negative and the next read panics; the hardened decoder reports ErrInvalidLength |
| TmplInstanceEqual.Equal | Workbooks/istio/mixer/test/spyAdapter/template/apa/tmpl_instance.pb.go:92-138 | definition of Equal as written; SameValueIsEqual, FieldsEqualWithoutEmptyValues and EqualMissingKeyReadsEmpty state its properties |
| TmplInstanceEqual.EqualStrict | Workbooks/istio/mixer/test/spyAdapter/template/apa/tmpl_instance.pb.go:92-138 | definition of the intended Equal, with key presence compared; EqualStrictIsSameValue states it is equality |
| TmplInstanceEqual.GetInt64Primitive | Workbooks/istio/mixer/test/spyAdapter/template/apa/tmpl_instance.pb.go:54-59 | definition of the getter; GettersOfNil states its nil case |
| TmplInstanceEqual.GetBoolPrimitive | Workbooks/istio/mixer/test/spyAdapter/template/apa/tmpl_instance.pb.go:61-66 | definition of the getter; GettersOfNil states its nil case |
| TmplInstanceEqual.GetDoublePrimitive | Workbooks/istio/mixer/test/spyAdapter/template/apa/tmpl_instance.pb.go:68-73 | definition of the getter; GettersOfNil states its nil case |
| TmplInstanceEqual.GetStringPrimitive | Workbooks/istio/mixer/test/spyAdapter/template/apa/tmpl_instance.pb.go:75-80 | definition of the getter; GettersOfNil states its nil case |
| TmplInstanceEqual.GetAttributeBindings | Workbooks/istio/mixer/test/spyAdapter/template/apa/tmpl_instance.pb.go:82-87 | definition of the getter; GettersOfNil states its nil case |
| TmplInstanceEqual.Lookup | Workbooks/istio/mixer/test/spyAdapter/template/apa/tmpl_instance.pb.go:133 | Go's map index: the value for a present key, "" for a missing one |
| TmplInstanceEqual.FieldsEqualStrictIsEquality | Workbooks/istio/mixer/test/spyAdapter/template/apa/tmpl_instance.pb.go:117-136 | comparing the four strings, the map sizes and each key's presence and value is message equality |
| TmplInstanceEqual.EqualStrictIsSameValue | Workbooks/istio/mixer/test/spyAdapter/template/apa/tmpl_instance.pb.go:92-138 | the strict Equal holds exactly when both sides are nil or hold the same message |
| TmplInstanceEqual.SameValueIsEqual | Workbooks/istio/mixer/test/spyAdapter/template/apa/tmpl_instance.pb.go:92-138 | Equal holds for every pair of nil or equal messages |
| TmplInstanceEqual.FieldsEqualWithoutEmptyValues | Workbooks/istio/mixer/test/spyAdapter/template/apa/tmpl_instance.pb.go:129-136 | when no map value is "", Equal is message equality |
| TmplInstanceEqual.EqualMissingKeyReadsEmpty | Workbooks/istio/mixer/test/spyAdapter/template/apa/tmpl_instance.pb.go:129-136 | Equal calls {x: ""} and {y: ""} equal though they differ; the strict comparison does not |
| TmplInstanceEqual.GettersOfNil | Workbooks/istio/mixer/test/spyAdapter/template/apa/tmpl_instance.pb.go:54-87 | each getter on a nil InstanceParam returns what it returns on the zero value |
| TmplInstanceCodec.WriteString | Workbooks/istio/mixer/test/spyAdapter/template/apa/tmpl_instance.pb.go:188-193 | tag byte, length varint, then the bytes of the string, appended at i |
| TmplInstanceCodec.WriteField | Workbooks/istio/mixer/test/spyAdapter/template/apa/tmpl_instance.pb.go:188-193 | a string field is written only when it is non-empty, taking StringSize bytes |
| TmplInstanceCodec.WriteMapTag | Workbooks/istio/mixer/test/spyAdapter/template/apa/tmpl_instance.pb.go:214-223 | the five tag bytes 82 d3 e4 93 02 of field 72295728 |
| TmplInstanceCodec.EntrySizeOf | Workbooks/istio/mixer/test/spyAdapter/template/apa/tmpl_instance.pb.go:225 | the entry size formula, which stays below 2^64 |
| TmplInstanceCodec.WriteEntry | Workbooks/istio/mixer/test/spyAdapter/template/apa/tmpl_instance.pb.go:213-235 | one map entry: map tag, entry size, key record 0x0a, value record 0x12 |
| TmplInstanceCodec.WriteEntries | Workbooks/istio/mixer/test/spyAdapter/template/apa/tmpl_instance.pb.go:212-236 | the entries in the visiting order, taking EntriesSize bytes |
| TmplInstanceCodec.ReadLengthAt | Workbooks/istio/mixer/test/spyAdapter/template/apa/tmpl_instance.pb.go:357-379 | the imperative length read returns exactly ReadLength |
| TmplInstanceCodec.SkipField | Workbooks/istio/mixer/test/spyAdapter/template/apa/tmpl_instance.pb.go:608-706 | skipTmplInstance, imperatively, returns exactly Skip |
| TmplInstanceCodec.SkipGroupAt | Workbooks/istio/mixer/test/spyAdapter/template/apa/tmpl_instance.pb.go:667-695 | the group loop returns exactly SkipGroup |
| TmplInstanceCodec.DecodeEntryAt | Workbooks/istio/mixer/test/spyAdapter/template/apa/tmpl_instance.pb.go:500-584 | the map-entry loop returns exactly DecodeEntry |
| TmplInstanceCodec.InstanceParam.constructor | Workbooks/istio/mixer/test/spyAdapter/template/apa/tmpl_instance.pb.go:50 | a new InstanceParam holds the zero message |
| TmplInstanceCodec.InstanceParam.Size | Workbooks/istio/mixer/test/spyAdapter/template/apa/tmpl_instance.pb.go:249-277 | Size returns SizeOf of the message |
| TmplInstanceCodec.InstanceParam.MarshalFields | Workbooks/istio/mixer/test/spyAdapter/template/apa/tmpl_instance.pb.go:188-211 | the four strings in field order 1 to 4, with empty ones left out |
| TmplInstanceCodec.InstanceParam.MarshalTo | Workbooks/istio/mixer/test/spyAdapter/template/apa/tmpl_instance.pb.go:183-238 | writes Encode(m) at the front of the buffer and returns Size() |
| TmplInstanceCodec.InstanceParam.Marshal | Workbooks/istio/mixer/test/spyAdapter/template/apa/tmpl_instance.pb.go:173-181 | returns Encode(m), whose length is Size() even when Size and MarshalTo visit the map in different orders |
| TmplInstanceCodec.InstanceParam.DecodeFieldAt | Workbooks/istio/mixer/test/spyAdapter/template/apa/tmpl_instance.pb.go:327-600 | one field loop iteration on the fields: the new state and the next index or the error are those of DecodeField |
| TmplInstanceCodec.InstanceParam.Unmarshal | Workbooks/istio/mixer/test/spyAdapter/template/apa/tmpl_instance.pb.go:324-607 | the fields after Unmarshal and the error it returns are those of the Unmarshal function (hardened or as written) |
| Inject.InitImageName | Workbooks/istio/pilot/platform/kube/inject/inject.go:127-129 | definition of the init image name; ImageNameLayout, ImageNamesDistinct and ImageNamesNonEmpty state its properties |
| Inject.ProxyImageName | Workbooks/istio/pilot/platform/kube/inject/inject.go:133-138 | definition of the proxy image name; ImageNameLayout, ImageNamesDistinct and ImageNamesNonEmpty state its properties |
| Inject.IsYamlTrue | Workbooks/istio/pilot/platform/kube/inject/inject.go:283-286 | definition of the YAML truth test of the inject annotation; YamlTrueIgnoresCase states that case does not matter |
| Inject.InjectRequired | Workbooks/istio/pilot/platform/kube/inject/inject.go:239-321 | definition of injectRequired; InjectRequiredIff, NeverInjectedTwice and Initializer.IgnoredNeverInjected state its properties |
| Inject.IntoObject | Workbooks/istio/pilot/platform/kube/inject/inject.go:349-406 | definition of intoObject on a workload; IntoObjectEffect, IntoObjectIdempotent and Initializer.IntoObjectKeepsInitializers state its properties |
| Inject.Injects | Workbooks/istio/pilot/platform/kube/inject/inject.go:357-394 | definition of when intoObject injects (the policy requires it and the pod is not on the host network); IntoObjectEffect uses it |
| Inject.ImageNameLayout | Workbooks/istio/pilot/platform/kube/inject/inject.go:127-138 | the init image is hub + "/proxy_init:" + tag whatever the debug flag; the proxy image is hub + "/proxy_debug:" + tag when debugging, else hub + "/proxy:" + tag |
| Inject.ImageNamesDistinct | Workbooks/istio/pilot/platform/kube/inject/inject.go:127-138 | the debug flag never changes the init image, and the three names built from one hub and tag differ pairwise |
| Inject.GetInitializerConfig | Workbooks/istio/pilot/platform/kube/inject/inject.go:187-236 | the error cases in order: fetch error, missing "config" key, YAML error, both namespace lists, NamespaceAll excluded; otherwise the defaulted configuration, which is usable |
| Inject.ApplyDefaults | Workbooks/istio/pilot/platform/kube/inject/inject.go:214-234 | the defaulting after the namespace checks, on a configuration whose include list GetInitializerConfig has already set: policy outside enabled/disabled becomes enabled, empty initializer name becomes the default, the parameters defaulted, namespace lists kept |
| Inject.DefaultParams | Workbooks/istio/pilot/platform/kube/inject/inject.go:220-231 | empty images become the built names, UID 0 becomes 1337, empty pull policy becomes IfNotPresent; other fields are kept |
| Inject.DefaultsUsable | Workbooks/istio/pilot/platform/kube/inject/inject.go:200-234 | a configuration that passed validation comes out with a known policy, an include list and every defaulted field set |
| Inject.DefaultsKeepSetValues | Workbooks/istio/pilot/platform/kube/inject/inject.go:214-234 | defaulting does not change values that are already set |
| Inject.IncludeSearchIsMembership | Workbooks/istio/pilot/platform/kube/inject/inject.go:254-270 | the labelled include search succeeds exactly when the list holds NamespaceAll or the object's namespace |
| Inject.ToLower | Workbooks/istio/pilot/platform/kube/inject/inject.go:283 | strings.ToLower on ASCII: same length, each upper-case letter lowered |
| Inject.InjectRequiredIff | Workbooks/istio/pilot/platform/kube/inject/inject.go:239-321 | injection is required exactly when the namespace is not ignored or excluded, is included, the policy is known, the annotation is a YAML true (or absent under the enabled policy), and no status annotation is present |
| Inject.NeverInjectedTwice | Workbooks/istio/pilot/platform/kube/inject/inject.go:309-320 | an object with the status annotation is never injected again |
| Inject.YamlTrueIgnoresCase | Workbooks/istio/pilot/platform/kube/inject/inject.go:283-286 | the inject annotation is read regardless of case |
| Inject.InjectIntoSpec | Workbooks/istio/pilot/platform/kube/inject/inject.go:344-346 | the sidecar's init containers, containers and volumes are appended after the existing ones, which stay in place |
| Inject.IntoObjectEffect | Workbooks/istio/pilot/platform/kube/inject/inject.go:349-406 | a skipped or host-network workload is returned as it is; otherwise both metadata get the status annotation "injected-version-" + version, no other annotation changes, and the sidecar is appended |
| Inject.IntoObjectIdempotent | Workbooks/istio/pilot/platform/kube/inject/inject.go:349-406 | injecting an injected workload changes nothing |
| Inject.NilIncludeInjectsNothing | Workbooks/istio/pilot/platform/kube/inject/inject.go:254-270 | with a nil include list the namespace search finds nothing, so intoObject returns the workload unchanged |
| Initializer.WithoutHead | Workbooks/istio/pilot/platform/kube/inject/initializer.go:203-209 | definition of the pending list after removing this initializer; RemoveSelf, Initialize and InitializedEffect are stated with it |
| Initializer.IgnoredNamespaces | Workbooks/istio/pilot/platform/kube/inject/initializer.go:46-50 | exactly kube-system, kube-public and the Istio namespace |
| Initializer.IgnoredNeverInjected | Workbooks/istio/pilot/platform/kube/inject/inject.go:240-245 | no workload in an ignored namespace is injected |
| Initializer.RemoveHead | Workbooks/istio/pilot/platform/kube/inject/initializer.go:208 | the in-place `append(pending[:0], pending[1:]...)`: the rest moves down one place in order |
| Initializer.RemoveSelf | Workbooks/istio/pilot/platform/kube/inject/initializer.go:203-209 | the head is removed; the pending list becomes nil when it held only this initializer |
| Initializer.Initialize | Workbooks/istio/pilot/platform/kube/inject/initializer.go:165-228 | no patch and no error without initializers, with an empty pending list or with another initializer first; otherwise the first marshalling or patch-creation error before anything is sent, else the patch to the initialized workload |
| Initializer.InitializedEffect | Workbooks/istio/pilot/platform/kube/inject/initializer.go:194-209 | the patched workload is the injected one with exactly the head of its pending list removed and the order of the rest kept |
| Initializer.IntoObjectKeepsInitializers | Workbooks/istio/pilot/platform/kube/inject/inject.go:349-406 | intoObject does not touch the pending initializers |
| IstioCa.VerifyOptions | Workbooks/istio/security/cmd/istio_ca/main.go:262-284 | definition of verifyCommandLineOptions' verdict; VerifyOptionsSpec and SelfSignedIgnoresFiles state its properties |
| IstioCa.CreateCA | Workbooks/istio/security/cmd/istio_ca/main.go:204-235 | definition of createCA with the file reads and constructors as parameters; CreateSelfSigned, CreateFromFiles and ChainReadOnlyWhenNamed state its properties |
| IstioCa.CliOptions.constructor | Workbooks/istio/security/cmd/istio_ca/main.go:98-135 | flag defaults: CA cert TTL 365 days, workload TTL 1 hour, max workload TTL 7 days, org k8s.cluster.local, storage namespace istio-system, gRPC host localhost and port 0 |
| IstioCa.VerifyOptionsSpec | Workbooks/istio/security/cmd/istio_ca/main.go:262-284 | self-signed mode passes; otherwise the first missing option among signing cert, signing key and root cert is fatal |
| IstioCa.SelfSignedIgnoresFiles | Workbooks/istio/security/cmd/istio_ca/main.go:263-265 | in self-signed mode the file options are not looked at |
| IstioCa.WithNamespaceEnv | Workbooks/istio/security/cmd/istio_ca/main.go:149-156 | NAMESPACE fills the namespace only when the flag was empty and always overwrites the storage namespace; nothing changes when it is unset |
| IstioCa.WithNamespaceEnvIdempotent | Workbooks/istio/security/cmd/istio_ca/main.go:149-156 | applying the NAMESPACE fallback twice is applying it once |
| IstioCa.CliOptions.ApplyNamespaceEnv | Workbooks/istio/security/cmd/istio_ca/main.go:149-156 | the fallback, in place on the global options |
| IstioCa.ReadCaOptions | Workbooks/istio/security/cmd/istio_ca/main.go:217-228 | the chain is read only when named, then signing cert, key and root cert; CertTTL is the workload TTL and MaxCertTTL the max workload TTL; a read error is fatal |
| IstioCa.SelfSignedArgsOf | Workbooks/istio/security/cmd/istio_ca/main.go:209-210 | the self-signed CA gets the CA cert TTL, workload TTL, max workload TTL, the org and the storage namespace |
| IstioCa.CreateSelfSigned | Workbooks/istio/security/cmd/istio_ca/main.go:205-214 | in self-signed mode createCA fails exactly when the constructor does, and reads no file |
| IstioCa.CreateFromFiles | Workbooks/istio/security/cmd/istio_ca/main.go:217-234 | in file mode only an unreadable file is fatal; a NewIstioCA error only leaves the CA nil |
| IstioCa.ChainReadOnlyWhenNamed | Workbooks/istio/security/cmd/istio_ca/main.go:217-220 | with no chain path the chain is empty and never read |
| IstioCa.Launch | Workbooks/istio/security/cmd/istio_ca/main.go:162-189 | the secret controller gets the workload TTL and namespace; the gRPC server, started only for a positive port, gets the max workload TTL |
| IstioCa.LaunchTTLs | Workbooks/istio/security/cmd/istio_ca/main.go:162-182 | with the defaults the secret controller issues one-hour and the gRPC server seven-day certificates |
| IstioCa.CliOptions.RunCA | Workbooks/istio/security/cmd/istio_ca/main.go:144-193 | the fallback, then the option check, then createCA, and what is started, or the fatal error that stops it |
| NodeAgentConfig.NewConfig | Workbooks/istio/security/cmd/node_agent/na/config.go:67-75 | 5 s initial retrial interval, 5 retries, 50% grace period, every other field zero and an empty platform config |
| Consul.PortMatch | Workbooks/istio/pilot/platform/consul/controller.go:142-152 | definition of portMatch; PortMatchIsRequested states it as membership in the requested ports |
| Consul.InstancesSelected | Workbooks/istio/pilot/platform/consul/controller.go:130-138 | definition of the instances the endpoint loop keeps; InstancesSelectedMembers and InstancesSelectedAll state its properties, and Instances is proved equal to it |
| Consul.OnHosts | Workbooks/istio/pilot/platform/consul/controller.go:166-170 | definition of the instances of one service on the given hosts; OnHostsMembers states its members, and AppendOnHosts is proved equal to it |
| Consul.HostInstancesOf | Workbooks/istio/pilot/platform/consul/controller.go:155-174 | definition of HostInstances' result; HostInstancesFailIfAnyFetchFails states its error case, and HostInstances is proved equal to it |
| Consul.PortMapOf | Workbooks/istio/pilot/platform/consul/controller.go:120-123 | the port map holds exactly the requested port names, each mapped to true |
| Consul.PortMatchIsRequested | Workbooks/istio/pilot/platform/consul/controller.go:142-152 | portMatch is true for every instance when no port is requested, else exactly when the service-port name is requested |
| Consul.InstancesSelectedMembers | Workbooks/istio/pilot/platform/consul/controller.go:130-138 | an instance is returned exactly when it converts from a catalog endpoint and passes the label and port filters |
| Consul.InstancesSelectedAll | Workbooks/istio/pilot/platform/consul/controller.go:130-138 | when every endpoint passes, all of them are returned, converted, in catalog order |
| Consul.Instances | Workbooks/istio/pilot/platform/consul/controller.go:111-139 | a hostname parse error or fetch error is returned; otherwise the filtered instances in catalog order |
| Consul.GetService | Workbooks/istio/pilot/platform/consul/controller.go:65-79 | a parse or fetch error is returned; no endpoints give a nil service and no error; else the converted service |
| Consul.Services | Workbooks/istio/pilot/platform/consul/controller.go:46-62 | one service per catalog name in visiting order, or the first fetch error |
| Consul.OnHostsMembers | Workbooks/istio/pilot/platform/consul/controller.go:166-170 | an endpoint's instance is kept exactly when its ServiceAddress maps to a non-nil node |
| Consul.HostInstancesFailIfAnyFetchFails | Workbooks/istio/pilot/platform/consul/controller.go:161-165 | any failing fetch makes HostInstances fail |
| Consul.AppendOnHosts | Workbooks/istio/pilot/platform/consul/controller.go:166-170 | the kept instances are appended in catalog order |
| Consul.HostInstances | Workbooks/istio/pilot/platform/consul/controller.go:155-174 | fails on a catalog or fetch error, else returns the instances on the given hosts, service by service |
| Consul.ManagementPorts | Workbooks/istio/pilot/platform/consul/controller.go:105-107 | always nil |
| Consul.GetIstioServiceAccounts | Workbooks/istio/pilot/platform/consul/controller.go:200-202 | always nil |
| Driver.RepeatOutcome | Workbooks/istio/pilot/test/integration/driver.go:369-381 | definition of repeat's result; RepeatOutcomeSpec states it, and Repeat is proved equal to it |
| Driver.Selected | Workbooks/istio/pilot/test/integration/driver.go:226-229 | definition of the test filter: no test type, or the test's own name; AllEventsMembers uses it |
| Driver.TestEvents | Workbooks/istio/pilot/test/integration/driver.go:231-246 | definition of the steps of one test's iterations; TestEventsMembers and TestEventsLength state its properties, and RunTest is proved equal to it |
| Driver.TestErrors | Workbooks/istio/pilot/test/integration/driver.go:231-246 | definition of the errors one test's iterations collect; RunTest is proved equal to it |
| Driver.AllEvents | Workbooks/istio/pilot/test/integration/driver.go:225-247 | definition of the steps of the whole test loop; AllEventsMembers states its members, and RunTests is proved equal to it |
| Driver.AllErrors | Workbooks/istio/pilot/test/integration/driver.go:225-247 | definition of the errors of the whole test loop; RunTests is proved equal to it |
| Driver.Repeat | Workbooks/istio/pilot/test/integration/driver.go:369-381 | stops after the first success, makes at most budget calls, and returns RepeatOutcome |
| Driver.RepeatOutcomeSpec | Workbooks/istio/pilot/test/integration/driver.go:369-381 | nil exactly when the budget is not positive or some call succeeds; otherwise all budget errors, each under its attempt number, in order |
| Driver.RetryTask | Workbooks/istio/pilot/test/integration/driver.go:338-361 | at most 90 attempts: nil on success or cancellation, "failed ... at attempt n" on a hard error, "failed all 90 attempts" after 90 errAgain results |
| Driver.RetryWithoutHardFailure | Workbooks/istio/pilot/test/integration/driver.go:340-359 | a check that never fails hard ends in success, cancellation or the whole budget |
| Driver.SetAuth | Workbooks/istio/pilot/test/integration/driver.go:168-176 | a copy with the auth name, mutual TLS, the control-plane auth policy and the two auth config files; every other field is kept |
| Driver.RunTest | Workbooks/istio/pilot/test/integration/driver.go:231-246 | count iterations of setup, run when setup succeeded, teardown, with the errors prefixed as the loop does |
| Driver.RunTests | Workbooks/istio/pilot/test/integration/driver.go:225-247 | the selected tests in order, each count times |
| Driver.AllEventsMembers | Workbooks/istio/pilot/test/integration/driver.go:225-247 | exactly the selected tests are set up and torn down each iteration, and run exactly when setup succeeded |
| Driver.TestEventsLength | Workbooks/istio/pilot/test/integration/driver.go:231-246 | each iteration takes two or three steps |
| EgressRules.Reachable | Workbooks/istio/pilot/test/integration/egress_rules.go:136 | definition of the reachability test (a first code httpOk and the trace id in the body); CheckStatus and ProbesOnePerSource are stated with it |
| EgressRules.Failures | Workbooks/istio/pilot/test/integration/egress_rules.go:106-112 | definition of the failures recorded for the first n cases; FailuresMembers and CaseFailsIffAllAttemptsFail state its properties |
| EgressRules.RunOutcome | Workbooks/istio/pilot/test/integration/egress_rules.go:99-117 | definition of run's result; AbortIffConfigError states when it aborts, and Run is proved equal to it |
| EgressRules.ContainsIsOccurrence | Workbooks/istio/pilot/test/integration/egress_rules.go:136 | strings.Contains finds the trace id exactly when it occurs at some offset |
| EgressRules.CheckStatus | Workbooks/istio/pilot/test/integration/egress_rules.go:137-144 | hard error exactly when reachable but should not be, errAgain exactly when unreachable but should be, success exactly when as expected |
| EgressRules.VerifyReachable | Workbooks/istio/pilot/test/integration/egress_rules.go:129-147 | one check per source a and b, under "Request from <src> to <url>" |
| EgressRules.ProbesOnePerSource | Workbooks/istio/pilot/test/integration/egress_rules.go:129-147 | the two checks are distinct, and each passes exactly when reachability is as expected |
| EgressRules.Run | Workbooks/istio/pilot/test/integration/egress_rules.go:99-117 | the cases in order; the first apply or delete error is returned at once; otherwise the failed cases' errors |
| EgressRules.AbortIffConfigError | Workbooks/istio/pilot/test/integration/egress_rules.go:100-116 | run aborts exactly when some config could not be applied or deleted |
| EgressRules.FailuresMembers | Workbooks/istio/pilot/test/integration/egress_rules.go:106-112 | a failure is recorded under a case's description exactly when its check failed all attempts |
| EgressRules.CaseFailsIffAllAttemptsFail | Workbooks/istio/pilot/test/integration/egress_rules.go:106 | a case fails exactly when its 3 attempts fail, keeping the 3 errors with their attempt numbers |
| EgressRules.CaseDescriptionsDistinct | Workbooks/istio/pilot/test/integration/egress_rules.go:44-98 | the seven case descriptions are distinct |
| CheckMatrix.Name | Workbooks/istio/pilot/test/integration/tcp.go:61 | definition of a check's map key; MatrixNamesInjective states that it determines the combination |
| CheckMatrix.Url | Workbooks/istio/pilot/test/integration/tcp.go:63 | definition of the URL a check requests; MatrixUrlsInjective states that it determines the combination |
| CheckMatrix.Insert | Workbooks/istio/pilot/test/integration/tcp.go:62 | definition of the map after inserting combinations in order; InsertAppend and InsertOnePerCombo state its properties |
| CheckMatrix.InsertPortsDomains | Workbooks/istio/pilot/test/integration/tcp.go:59-80 | the port and domain loops insert each combination under its name |
| CheckMatrix.InsertOnePerCombo | Workbooks/istio/pilot/test/integration/tcp.go:61-62 | when names are distinct, the map holds one entry per combination and nothing else |
| CheckMatrix.MatrixNamesInjective | Workbooks/istio/pilot/test/integration/tcp.go:61 | the name determines the combination |
| CheckMatrix.MatrixUrlsInjective | Workbooks/istio/pilot/test/integration/tcp.go:63 | the URL determines the combination |
| Tcp.DstPods | Workbooks/istio/pilot/test/integration/tcp.go:47-51 | definition of the destinations, with t only without mesh auth; TargetsOfT states it |
| Tcp.Skipped | Workbooks/istio/pilot/test/integration/tcp.go:55-58 | definition of the skipped t-to-t pair; DstCombosMembers and TargetsOfT use it |
| Tcp.Combos | Workbooks/istio/pilot/test/integration/tcp.go:53-83 | definition of the combinations of run's loops in loop order; CombosMembers states its members, and MakeChecks is proved to insert them |
| Tcp.ExpectBlocked | Workbooks/istio/pilot/test/integration/tcp.go:66-68 | definition of the connections that must be refused; CheckStatus is stated with it |
| Tcp.InsertDsts | Workbooks/istio/pilot/test/integration/tcp.go:54-82 | the destination loop for one source, skipping t to t |
| Tcp.InsertSrcs | Workbooks/istio/pilot/test/integration/tcp.go:53-83 | the source loop |
| Tcp.MakeChecks | Workbooks/istio/pilot/test/integration/tcp.go:46-83 | the check map, with t among the destinations only when mesh auth is NONE |
| Tcp.Run | Workbooks/istio/pilot/test/integration/tcp.go:39-85 | no checks under Eureka, otherwise the check map |
| Tcp.CombosMembers | Workbooks/istio/pilot/test/integration/tcp.go:53-83 | the combinations are exactly the source, destination (no t to t), port and domain choices |
| Tcp.OneCheckPerCombination | Workbooks/istio/pilot/test/integration/tcp.go:46-83 | exactly one check per wanted connection, under its own name |
| Tcp.UrlsDistinct | Workbooks/istio/pilot/test/integration/tcp.go:63 | no two checks request the same URL |
| Tcp.TargetsOfT | Workbooks/istio/pilot/test/integration/tcp.go:46-58 | t is a destination only without mesh auth, and never of itself |
| Tcp.CheckStatus | Workbooks/istio/pilot/test/integration/tcp.go:64-78 | success exactly when the outcome is the expected one, else errAgain: no HTTP 200 for a request from t under mutual TLS or from t to d:9090, an HTTP 200 for every other request |
| Tcp.ChecksNeverFailHard | Workbooks/istio/pilot/test/integration/tcp.go:64-78 | retried, a check ends in success, cancellation or the whole budget |
| AuthExclusion.Combos | Workbooks/istio/pilot/test/integration/auth_exclusion.go:50-67 | definition of the combinations of makeRequests' loops in loop order; CombosMembers states its members, and MakeChecks is proved to insert them |
| AuthExclusion.MakeChecks | Workbooks/istio/pilot/test/integration/auth_exclusion.go:46-67 | the check map of makeRequests |
| AuthExclusion.CombosMembers | Workbooks/istio/pilot/test/integration/auth_exclusion.go:46-53 | the combinations are exactly src in {a, b, t} to fake-control, port in {"", :80, :8080}, both domains |
| AuthExclusion.OneCheckPerCombination | Workbooks/istio/pilot/test/integration/auth_exclusion.go:46-67 | one check per combination, under its own name |
| AuthExclusion.UrlsDistinct | Workbooks/istio/pilot/test/integration/auth_exclusion.go:55 | no two checks request the same URL |
| AuthExclusion.CheckStatus | Workbooks/istio/pilot/test/integration/auth_exclusion.go:56-63 | success exactly when the first code is "200"; never a hard error |
| AuthExclusion.ChecksNeverFailHard | Workbooks/istio/pilot/test/integration/auth_exclusion.go:56-63 | retried, a check ends in success, cancellation or the whole budget |
| TmplInstanceProofs.DecodeMapEntry | Workbooks/istio/mixer/test/spyAdapter/template/apa/tmpl_instance.pb.go:469-586 | a well-formed map-entry record decodes to m with that key set to that value, ending where the record ends |
| TmplInstanceProofs.ApplyEntriesOrder | Workbooks/istio/mixer/test/spyAdapter/template/apa/tmpl_instance.pb.go:585 | assigning decoded entries one at a time, in any order that lists each key once, gives the map union |
| TmplInstanceErrors.SkipNeverPanics | Workbooks/istio/mixer/test/spyAdapter/template/apa/tmpl_instance.pb.go:608-706 | with the `< 0` checks, skipTmplInstance never panics |
| TmplInstanceErrors.SkipGroupNeverPanics | Workbooks/istio/mixer/test/spyAdapter/template/apa/tmpl_instance.pb.go:667-695 | with the `< 0` checks, skipping a group never panics |
| TmplInstanceErrors.DecodeEntryNeverPanics | Workbooks/istio/mixer/test/spyAdapter/template/apa/tmpl_instance.pb.go:500-584 | with the `< 0` checks, decoding a map entry never panics |
| TmplInstanceErrors.DecodeFieldNeverPanics | Workbooks/istio/mixer/test/spyAdapter/template/apa/tmpl_instance.pb.go:327-600 | with the `< 0` checks, no field record panics |
| TmplInstanceErrors.LongVarints | Workbooks/istio/mixer/test/spyAdapter/template/apa/tmpl_instance.pb.go:240-248 | 2^63 - 1 encodes as eight 0xff bytes and 0x7f; 2^63 - 11 as 0xf5, seven 0xff bytes and 0x7f |
| TmplInstanceErrors.LongStringLength | Workbooks/istio/mixer/test/spyAdapter/template/apa/tmpl_instance.pb.go:357-371 | LONG_STRING holds tag 0x0a and the length 2^63 - 1, read up to byte 10 |
| TmplInstanceErrors.LongSkipLength | Workbooks/istio/mixer/test/spyAdapter/template/apa/tmpl_instance.pb.go:646-659 | LONG_SKIP holds an empty field 1, then the tag 0x2a of field 5 with the length 2^63 - 11 |
| TmplInstanceCodec.PutByte | Workbooks/istio/mixer/test/spyAdapter/template/apa/tmpl_instance.pb.go:189-190 | one byte stored at i, the prefix before it kept |
| TmplInstanceCodec.CopyBytes | Workbooks/istio/mixer/test/spyAdapter/template/apa/tmpl_instance.pb.go:192 | the copy() of a string into the buffer: bytes before i kept, then s |
| TmplInstanceCodec.WriteVarint | Workbooks/istio/mixer/test/spyAdapter/template/apa/tmpl_instance.pb.go:191 | the varint of v appended at i, taking sov(v) bytes |
| TmplInstanceCodec.StringFieldSize | Workbooks/istio/mixer/test/spyAdapter/template/apa/tmpl_instance.pb.go:252-255 | a string field costs 1 + sov(len) + len bytes when non-empty, nothing when empty |
| Inject.ToLowerIdempotent | Workbooks/istio/pilot/platform/kube/inject/inject.go:283 | lowering twice is lowering once |
| Inject.ImageNamesNonEmpty | Workbooks/istio/pilot/platform/kube/inject/inject.go:127-138 | the built image names are never empty, so they count as set when defaulting |
| Consul.FirstFailure | Workbooks/istio/pilot/platform/consul/controller.go:53-57 | the first catalog name whose fetch fails; every earlier one succeeds |
| EgressRules.FirstAbort | Workbooks/istio/pilot/test/integration/egress_rules.go:100-116 | the first case whose config cannot be applied or deleted; every earlier one went through |
| Driver.FirstDecisive | Workbooks/istio/pilot/test/integration/driver.go:340-358 | the first attempt that ends the retry loop; every earlier one answered errAgain and was not cancelled |
| Driver.FirstSuccess | Workbooks/istio/pilot/test/integration/driver.go:371-375 | the first call that returns nil; every earlier one failed |
| Driver.TestEventsMembers | Workbooks/istio/pilot/test/integration/driver.go:231-246 | for one test, setup and teardown happen for each iteration below count, and run exactly when setup succeeded |
| CheckMatrix.PortDomainCombosMembers | Workbooks/istio/pilot/test/integration/tcp.go:59-60 | the port and domain loops visit exactly each port with each domain |
| Tcp.DstCombosMembers | Workbooks/istio/pilot/test/integration/tcp.go:54-60 | for one source, exactly the destinations other than the t-to-t pair, with each port and domain |
| Tcp.WantedNamesOneLetter | Workbooks/istio/pilot/test/integration/tcp.go:46-50 | every pod name in the matrix is a single letter, which makes the names injective |
| Tcp.CheckWanted | Workbooks/istio/pilot/test/integration/tcp.go:61-62 | each entry of the check map is a wanted connection, filed under its own name |

## Left out

- CA signing, certificate rotation, the secret controller, the gRPC server and the registries are not modelled. Their constructors and `Run` are parameters of `IstioCa.CliOptions.RunCA`, and only their arguments are modelled.
- `log.Configure`, `createClientset` and `generateConfig` in `istio_ca/main.go` are left out. They only wrap client-go and abort the process on error.
- Inject.ToLower: only 'A' to 'Z' are lowered, where Go's `strings.ToLower` lowers every Unicode capital ("É" to "é", "İ" to "i"). `Inject.IsYamlTrue` is unaffected: no rune outside 'A' to 'Z' lowers to a letter of "y", "yes", "true" or "on", so the annotation test gives the same verdict.
- Logging everywhere, and `tlog`, are left out.
- The node agent's main loop and its CA client are left out. Only `NewConfig` is part of the core.
- `meta.Accessor` is assumed to succeed, so its errors in `initialize` and `intoObject` are not modelled. Every workload kind it accepts is one `Workload` value.
- Rendering the sidecar template and parsing YAML are left out. The rendered `SidecarConfig` and the result of `yaml.Unmarshal` are inputs.
- `GetInitializerConfig` polls the ConfigMap with `wait.Poll`. Only the outcome of that fetch is an input; the polling itself is not modelled.
- The informer, the work queue and `Run` of the initializer are left out, along with `NewInitializer`. They are Kubernetes controller plumbing.
- `configmap.go` and `security/integration/utils/kubernetes.go` are not part of this model. They are client-go wrappers with no logic of their own.
- The Consul HTTP client is left out, as are `parseHostname`, `convertService`, `convertInstance` and `Labels.HasSubsetOf`. They are function parameters.
- The goroutines and the errgroup of `parallel` are left out, along with its one-second delay and `repeat`'s sleep. Each check's retry loop is modelled on its own, with cancellation as an input.
- The setup, teardown and `run` of each integration test are inputs of the test loop. So are the pod-listing, app deployment and log spill around the test loop in `runTests`, and the HTTP requests behind each check.
- Driver.RunTests: the collected `multierror` is a list of errors, each tagged with the test (and the iteration for a failed run) that `multierror.Prefix` would put in front.
- EgressRules.Run: each case's check is an input rather than a call of `VerifyReachable`.
- EgressRules.VerifyReachable: the trace id read from the clock is a function parameter.
- Tcp.MakeChecks: mesh auth is modelled with its two values NONE and MUTUAL_TLS.
- Tcp.Run: registries are only told apart as Eureka or not.
- `String`, `GoString`, `Reset`, `ProtoMessage`, `Descriptor`, the registration `init` and `fileDescriptorTmplInstance` are left out of the generated code. They are reflection and printing.
- TmplInstanceCodec.InstanceParam.Marshal: `MarshalTo`'s `error` result is always nil, so Marshal's error path is left out.
- TmplInstanceCodec.InstanceParam.MarshalTo: requires a buffer of at least `Size()` bytes. On a shorter buffer the Go code panics with an index out of range (tmpl_instance.pb.go:183-238), and that panic is not modelled. `Marshal` always passes a buffer of exactly `Size()` bytes.
- The release pipeline DAG (`release/pipline/dags/istio_monthly_flow.py`) is not part of this model. It is Airflow configuration.

## Findings

| source | as written | input that shows it | evidently intended | confidence | as-written member | corrected member |
|---|---|---|---|---|---|---|
| Workbooks/istio/mixer/test/spyAdapter/template/apa/tmpl_instance.pb.go:372-380 | `postIndex := iNdEx + intStringLen` is computed in a 64-bit int. A length just below 2^63 wraps postIndex negative, which passes `postIndex > l`, and `dAtA[iNdEx:postIndex]` panics. The same happens in the map-entry and skip paths (lines 593-599 and 662-666) | `0a ff ff ff ff ff ff ff ff 7f` (field 1, length 2^63 - 1) | Unmarshal returns ErrInvalidLengthTmplInstance on any length it cannot hold, and never panics | not executed | TmplInstanceErrors.AsWrittenLongStringPanics | TmplInstanceErrors.HardenedNeverPanics |
| Workbooks/istio/mixer/test/spyAdapter/template/apa/tmpl_instance.pb.go:587-599 | skipTmplInstance returns a huge positive length. `iNdEx + skippy` then wraps negative, passes the `> l` test, and the next read of `dAtA[iNdEx]` panics | `0a 00 2a f5 ff ff ff ff ff ff ff 7f` (empty field 1, then unknown field 5 with length 2^63 - 11) | an unknown field that cannot fit is reported as ErrInvalidLengthTmplInstance | not executed | TmplInstanceErrors.AsWrittenLongSkipPanics | TmplInstanceErrors.HardenedNeverPanics |
| Workbooks/istio/mixer/test/spyAdapter/template/apa/tmpl_instance.pb.go:129-136 | Equal compares the map sizes, then `that1.AttributeBindings[i]` for each key. A missing key reads as `""`, so a value `""` matches an absent key | `{x: ""}` against `{y: ""}` | Equal holds exactly when both maps have the same keys and values | not executed | TmplInstanceEqual.EqualMissingKeyReadsEmpty | TmplInstanceEqual.EqualStrictIsSameValue |
