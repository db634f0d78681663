# Spring Cloud Consul: registry, event inbound adapter and config-data location resolver

A Dafny model of three parts of Spring Cloud Consul:

- **The service registry** (`ConsulServiceRegistry`). It registers and deregisters an instance with the Consul agent. It hands TTL checks to the heartbeat scheduler, switches maintenance mode on and off, and reads the instance's status from its health checks.
- **The inbound message producer of the Consul binder** (`ConsulInboundMessageProducer`). A poll, scheduled with a fixed delay, watches Consul events. It Base64-decodes each payload and sends one message per event.
- **The config-data location resolver** (`ConsulConfigDataLocationResolver`). It decides which `consul:` locations it handles and turns a location into a `consul://` URI. It loads the agent address and the config properties with their defaults, and chooses the key-value contexts to read.

## How the model is built

- **Calls on the outside world are kept in logs.** The registry records every call it makes on the Consul client and on the TTL scheduler in a `calls: seq<Call>` field. The producer records every call on its executor in a `schedulerCalls` field, and everything it sent in a `sent` field.
- **What the outside world returns is a parameter.** This covers the outcome of a catalog call (`CatalogOutcome`), the health checks the query returned, the result of `watch()`, the values Spring's `Binder` returns, and Spring's URI parser (a function argument).
- **Exceptions are values.** The exceptions that the source throws or swallows become `Outcome`, `Result` or `Option` values.
- **Stateful objects are classes.** The registry, the producer and the two property objects the resolver fills in are classes whose methods update their fields. The decisions themselves are functions, and lemmas state what each of them promises.
- **Base64 is written out.** `java.util.Base64.getDecoder().decode` is modelled with Java's leniency: the padding is optional and the unused low bits of a short last unit are not checked. It comes with the padded encoder of section 4 of RFC 4648 and a proved round trip.
- **Java and Spring text helpers are written out.** `String.split` on one character and Spring's `StringUtils.hasText` are modelled as Java defines them. `equalsIgnoreCase` is modelled for ASCII letters and for the four non-ASCII characters that fold onto ASCII letters (see "Left out").

Files:

- `wrappers.dfy`: `Option`, `Result` and `Outcome`.
- `java_text.dfy`: Java and Spring text helpers.
- `base64.dfy`: the decoder, the encoder and their lemmas.
- `service_registry.dfy`: the registry.
- `inbound_message_producer.dfy`: the producer.
- `config_location_resolver.dfy`: the resolver.

Two behaviours of the registry worth noting:

- **`deregister`** removes the instance from the heartbeat scheduler only when a scheduler exists (ConsulServiceRegistry.java:85-87).
- **`getStatus`** matches only checks scoped to this instance whose name equals "Service Maintenance Mode" when case is ignored (ConsulServiceRegistry.java:121-122).

## Model

| member | source | states |
|---|---|---|
| ServiceRegistry.ConsulServiceRegistry.constructor | spring-cloud-consul-discovery/src/main/java/org/springframework/cloud/consul/serviceregistry/ConsulServiceRegistry.java:55-61 | a new registry keeps its settings and has made no call |
| ServiceRegistry.ConsulServiceRegistry.Register | spring-cloud-consul-discovery/src/main/java/org/springframework/cloud/consul/serviceregistry/ConsulServiceRegistry.java:64-81 | the log grows by exactly the register calls; the result is the fail-fast policy |
| ServiceRegistry.RegisterCallsCatalogFirst | spring-cloud-consul-discovery/src/main/java/org/springframework/cloud/consul/serviceregistry/ConsulServiceRegistry.java:66-72 | the catalog register call, with the service and the ACL token, is always made and comes before any scheduler call |
| ServiceRegistry.RegisterSchedulesIffGuard | spring-cloud-consul-discovery/src/main/java/org/springframework/cloud/consul/serviceregistry/ConsulServiceRegistry.java:69-72 | the scheduler is given the service if and only if the register call returned, heartbeat is enabled, a scheduler exists and the service has a check with a TTL; otherwise no scheduler call is made |
| ServiceRegistry.RegisterFailurePolicy | spring-cloud-consul-discovery/src/main/java/org/springframework/cloud/consul/serviceregistry/ConsulServiceRegistry.java:74-80 | a catalog failure is rethrown if and only if fail-fast is on, and nothing follows the failed call; a call that returned never fails |
| ServiceRegistry.ConsulServiceRegistry.Deregister | spring-cloud-consul-discovery/src/main/java/org/springframework/cloud/consul/serviceregistry/ConsulServiceRegistry.java:84-92 | the log grows by exactly the deregister calls; a catalog failure propagates |
| ServiceRegistry.DeregisterOrder | spring-cloud-consul-discovery/src/main/java/org/springframework/cloud/consul/serviceregistry/ConsulServiceRegistry.java:85-91 | the catalog deregister call with the instance id and token is always made, and last; the scheduler removal happens if and only if a scheduler exists, strictly before it, and is the only scheduler call |
| ServiceRegistry.ConsulServiceRegistry.Close | spring-cloud-consul-discovery/src/main/java/org/springframework/cloud/consul/serviceregistry/ConsulServiceRegistry.java:95-97 | closing makes no call |
| ServiceRegistry.ConsulServiceRegistry.SetStatus | spring-cloud-consul-discovery/src/main/java/org/springframework/cloud/consul/serviceregistry/ConsulServiceRegistry.java:100-111 | the log grows by the maintenance call of the status; an unknown status fails with IllegalArgument and makes no call |
| ServiceRegistry.SetStatusMapping | spring-cloud-consul-discovery/src/main/java/org/springframework/cloud/consul/serviceregistry/ConsulServiceRegistry.java:100-111 | OUT_OF_SERVICE turns maintenance on and UP turns it off, both for this instance; the two codes never both match; any other status is rejected with no call; for a known status the result is a ConsulException exactly when the maintenance call throws, and success exactly when it returns |
| ServiceRegistry.SetStatusIgnoresCase | spring-cloud-consul-discovery/src/main/java/org/springframework/cloud/consul/serviceregistry/ConsulServiceRegistry.java:101-108 | "out_of_service" and "Up" map like the codes, while "DOWN" and "UP " (with a trailing space) are unknown |
| ServiceRegistry.ConsulServiceRegistry.GetStatus | spring-cloud-consul-discovery/src/main/java/org/springframework/cloud/consul/serviceregistry/ConsulServiceRegistry.java:114-129 | the health query of the service is the only call; the result is OUT_OF_SERVICE if and only if some check scoped to this instance has the maintenance name, ignoring case, and UP otherwise; a failing query propagates |
| InboundMessageProducer.ConsulInboundMessageProducer.constructor | spring-cloud-consul-binder/src/main/java/org/springframework/cloud/consul/binder/ConsulInboundMessageProducer.java:50-60 | a new producer has sent nothing, holds no handle and has made no scheduler call |
| InboundMessageProducer.ConsulInboundMessageProducer.DoStart | spring-cloud-consul-binder/src/main/java/org/springframework/cloud/consul/binder/ConsulInboundMessageProducer.java:79-82 | before a shutdown, one fixed-delay schedule of 500 ms initial delay and 500 ms delay is added and its future becomes the handle; after a shutdown the schedule is rejected and nothing changes |
| InboundMessageProducer.ConsulInboundMessageProducer.DoStop | spring-cloud-consul-binder/src/main/java/org/springframework/cloud/consul/binder/ConsulInboundMessageProducer.java:85-90 | the scheduled future is cancelled with interruption only if one exists, then the scheduler is always shut down |
| InboundMessageProducer.StartThenStop | spring-cloud-consul-binder/src/main/java/org/springframework/cloud/consul/binder/ConsulInboundMessageProducer.java:79-90 | on a producer not yet stopped, start then stop cancels exactly the poll that start scheduled, then shuts the scheduler down; the task counter advances by one and nothing is sent |
| InboundMessageProducer.StopThenStart | spring-cloud-consul-binder/src/main/java/org/springframework/cloud/consul/binder/ConsulInboundMessageProducer.java:79-90 | a start after a stop is rejected: the handle and task counter stay, and the last scheduler call is the shutdown |
| InboundMessageProducer.ConsulInboundMessageProducer.GetEvents | spring-cloud-consul-binder/src/main/java/org/springframework/cloud/consul/binder/ConsulInboundMessageProducer.java:93-113 | one poll appends exactly the delivered messages to what was sent: nothing when watch throws, otherwise the decoded events before the first undecodable one; no failure escapes |
| InboundMessageProducer.DecodePayload | spring-cloud-consul-binder/src/main/java/org/springframework/cloud/consul/binder/ConsulInboundMessageProducer.java:99 | a null payload fails to decode; a payload that decodes is not of length 1 mod 4, and a non-empty one yields at least one byte |
| InboundMessageProducer.Deliveries | spring-cloud-consul-binder/src/main/java/org/springframework/cloud/consul/binder/ConsulInboundMessageProducer.java:96-103 | a poll never sends more messages than there are events, and when it sends fewer, the event at that position is one that fails to decode |
| InboundMessageProducer.FirstFailure | spring-cloud-consul-binder/src/main/java/org/springframework/cloud/consul/binder/ConsulInboundMessageProducer.java:94-105 | the index of the first event whose payload does not decode, or the batch length; every earlier event decodes |
| InboundMessageProducer.DeliveriesUpToFirstFailure | spring-cloud-consul-binder/src/main/java/org/springframework/cloud/consul/binder/ConsulInboundMessageProducer.java:96-105 | a poll sends exactly as many messages as events before the first failure, message j carrying event j's decoded payload |
| InboundMessageProducer.AllDelivered | spring-cloud-consul-binder/src/main/java/org/springframework/cloud/consul/binder/ConsulInboundMessageProducer.java:96-103 | when every payload decodes, one message per event is sent, in watch order |
| InboundMessageProducer.PartialDelivery | spring-cloud-consul-binder/src/main/java/org/springframework/cloud/consul/binder/ConsulInboundMessageProducer.java:96-105 | when event k is the first to fail, exactly events 0..k-1 have been sent and nothing after |
| InboundMessageProducer.EncodedBatchDelivered | spring-cloud-consul-binder/src/main/java/org/springframework/cloud/consul/binder/ConsulInboundMessageProducer.java:95-103 | events whose payloads are Base64 encodings of some bodies are delivered as exactly those bodies, in order |
| Base64.Decode | spring-cloud-consul-binder/src/main/java/org/springframework/cloud/consul/binder/ConsulInboundMessageProducer.java:99 | a successful decoding never comes from input of length 1 mod 4, and a non-empty input always yields at least one byte |
| Base64.AlphabetBijection | spring-cloud-consul-binder/src/main/java/org/springframework/cloud/consul/binder/ConsulInboundMessageProducer.java:99 | the 64-character alphabet is a bijection with the indices 0..63 and excludes the padding character |
| Base64.DecodeEncode | spring-cloud-consul-binder/src/main/java/org/springframework/cloud/consul/binder/ConsulInboundMessageProducer.java:99 | decoding the padded encoding of any byte sequence gives those bytes back |
| Base64.DecodeRejectsForeign | spring-cloud-consul-binder/src/main/java/org/springframework/cloud/consul/binder/ConsulInboundMessageProducer.java:99 | a character outside the alphabet, other than the padding, anywhere in the payload makes decoding fail |
| Base64.DecodeLength | spring-cloud-consul-binder/src/main/java/org/springframework/cloud/consul/binder/ConsulInboundMessageProducer.java:99 | a successful decoding never has length 1 mod 4; it yields exactly three bytes per four characters, less one per padding character of a padded last unit, or less one per missing character of an unpadded one |
| Base64.LenientLastUnit | spring-cloud-consul-binder/src/main/java/org/springframework/cloud/consul/binder/ConsulInboundMessageProducer.java:99 | the decoder ignores the unused low bits: "QQ==" and "QR==" both decode to byte 65, while the encoder writes "QQ==" |
| JavaText.HasText | spring-cloud-consul-config/src/main/java/org/springframework/cloud/consul/config/ConsulConfigDataLocationResolver.java:125 | text requires a non-empty string, and any non-whitespace character gives text |
| JavaText.EqualsIgnoreCase | spring-cloud-consul-discovery/src/main/java/org/springframework/cloud/consul/serviceregistry/ConsulServiceRegistry.java:101-104 | every string equals itself ignoring case, and strings equal ignoring case have the same length |
| JavaText.JavaSplit | spring-cloud-consul-config/src/main/java/org/springframework/cloud/consul/config/ConsulConfigDataLocationResolver.java:130 | no segment contains the separator, and when the separator occurs the last segment kept is non-empty |
| JavaText.JoinRawSplit | spring-cloud-consul-config/src/main/java/org/springframework/cloud/consul/config/ConsulConfigDataLocationResolver.java:130 | joining the pieces cut at the separator gives back the string |
| JavaText.JavaSplitShape | spring-cloud-consul-config/src/main/java/org/springframework/cloud/consul/config/ConsulConfigDataLocationResolver.java:130 | Java's split yields the whole string when the separator is absent; otherwise a prefix of the raw pieces that drops only empty trailing pieces, ends with a non-empty piece and has no separator in any piece |
| JavaText.DropTrailingEmpty | spring-cloud-consul-config/src/main/java/org/springframework/cloud/consul/config/ConsulConfigDataLocationResolver.java:130 | the result is a prefix of the pieces, only empty pieces are dropped, and the last piece kept is non-empty |
| ConfigDataLocationResolver.IsResolvable | spring-cloud-consul-config/src/main/java/org/springframework/cloud/consul/config/ConsulConfigDataLocationResolver.java:72-82 | a location without the consul: prefix is never resolvable; with it, resolvable if and only if neither enabled flag is bound to false |
| ConfigDataLocationResolver.IsResolvableIgnoresFlagsWithoutPrefix | spring-cloud-consul-config/src/main/java/org/springframework/cloud/consul/config/ConsulConfigDataLocationResolver.java:73-75 | without the prefix the answer is false whatever the flags |
| ConfigDataLocationResolver.Resolve | spring-cloud-consul-config/src/main/java/org/springframework/cloud/consul/config/ConsulConfigDataLocationResolver.java:85-88 | profile-less resolution yields no resource |
| ConfigDataLocationResolver.GetSuffixes | spring-cloud-consul-config/src/main/java/org/springframework/cloud/consul/config/ConsulConfigDataLocationResolver.java:139-144 | the file suffixes if and only if the format is FILES, the folder suffix if and only if it is not |
| ConfigDataLocationResolver.ParseLocation | spring-cloud-consul-config/src/main/java/org/springframework/cloud/consul/config/ConsulConfigDataLocationResolver.java:147-160 | no URI if and only if the non-prefixed value has no text; a value starting with "//" is kept; any other value gets "consul://" in front |
| ConfigDataLocationResolver.ParseLocationBothSpellings | spring-cloud-consul-config/src/main/java/org/springframework/cloud/consul/config/ConsulConfigDataLocationResolver.java:147-159 | for a value v with text not starting with "//", "consul:v" is handed to the URI parser as "consul://v" and "consul://v" as "//v" |
| ConfigDataLocationResolver.WithSuffixes | spring-cloud-consul-config/src/main/java/org/springframework/cloud/consul/config/ConsulConfigDataLocationResolver.java:131-133 | one context per suffix, in order, each being the segment followed by that suffix |
| ConfigDataLocationResolver.SuffixedContextsLength | spring-cloud-consul-config/src/main/java/org/springframework/cloud/consul/config/ConsulConfigDataLocationResolver.java:130-134 | the custom contexts number the segments times the suffixes |
| ConfigDataLocationResolver.SuffixedContextsAt | spring-cloud-consul-config/src/main/java/org/springframework/cloud/consul/config/ConsulConfigDataLocationResolver.java:130-134 | the context at position i times the suffix count plus j is segment i followed by suffix j, with no profile |
| ConfigDataLocationResolver.GetCustomContexts | spring-cloud-consul-config/src/main/java/org/springframework/cloud/consul/config/ConsulConfigDataLocationResolver.java:124-137 | no context for a path without text; otherwise the ordered cross product of the split segments and the format's suffixes |
| ConfigDataLocationResolver.SplitOnlySeparators | spring-cloud-consul-config/src/main/java/org/springframework/cloud/consul/config/ConsulConfigDataLocationResolver.java:125-130 | every non-empty path made only of separators has text but yields no segment |
| ConfigDataLocationResolver.SplitNoSeparator | spring-cloud-consul-config/src/main/java/org/springframework/cloud/consul/config/ConsulConfigDataLocationResolver.java:130 | the example "config/app" splits into the single segment "config/app"; the general rule, a path without a separator is one segment, is the first ensures of JavaText.JavaSplitShape |
| ConfigDataLocationResolver.SplitKeepsInnerEmpty | spring-cloud-consul-config/src/main/java/org/springframework/cloud/consul/config/ConsulConfigDataLocationResolver.java:130 | "a;;b;" splits into "a", "" and "b": inner empty segments are kept and trailing ones dropped |
| ConfigDataLocationResolver.ChooseContexts | spring-cloud-consul-config/src/main/java/org/springframework/cloud/consul/config/ConsulConfigDataLocationResolver.java:105-107 | the automatic contexts without a URI or without path segments; otherwise the custom contexts of the path |
| ConfigDataLocationResolver.LocatedOverrides | spring-cloud-consul-config/src/main/java/org/springframework/cloud/consul/config/ConsulConfigDataLocationResolver.java:203-210 | without a URI the bound host and port stay; a host with text and a non-negative port override them, and otherwise the bound values stay; applying the URI twice changes nothing more |
| ConfigDataLocationResolver.ConsulProperties.constructor | spring-cloud-consul-config/src/main/java/org/springframework/cloud/consul/config/ConsulConfigDataLocationResolver.java:199-201 | the new properties hold the given address |
| ConfigDataLocationResolver.ConsulProperties.SetHost | spring-cloud-consul-config/src/main/java/org/springframework/cloud/consul/config/ConsulConfigDataLocationResolver.java:205 | sets the host |
| ConfigDataLocationResolver.ConsulProperties.SetPort | spring-cloud-consul-config/src/main/java/org/springframework/cloud/consul/config/ConsulConfigDataLocationResolver.java:208 | sets the port |
| ConfigDataLocationResolver.LoadProperties | spring-cloud-consul-config/src/main/java/org/springframework/cloud/consul/config/ConsulConfigDataLocationResolver.java:196-213 | fresh properties whose address is the bound address (or the defaults) with the URI's overrides applied |
| ConfigDataLocationResolver.LoadedDefaults | spring-cloud-consul-config/src/main/java/org/springframework/cloud/consul/config/ConsulConfigDataLocationResolver.java:222-229 | a name or token with text is never overwritten; a blank name falls back to spring.application.name, then "application"; a blank token to spring.cloud.consul.token, then consul.token, then null; the format is kept |
| ConfigDataLocationResolver.LoadedIsStable | spring-cloud-consul-config/src/main/java/org/springframework/cloud/consul/config/ConsulConfigDataLocationResolver.java:222-229 | loading again from the loaded settings changes nothing, whatever the bound properties |
| ConfigDataLocationResolver.ConsulConfigProperties.constructor | spring-cloud-consul-config/src/main/java/org/springframework/cloud/consul/config/ConsulConfigDataLocationResolver.java:218-220 | the new config properties hold the given settings |
| ConfigDataLocationResolver.ConsulConfigProperties.SetName | spring-cloud-consul-config/src/main/java/org/springframework/cloud/consul/config/ConsulConfigDataLocationResolver.java:223 | sets the name |
| ConfigDataLocationResolver.ConsulConfigProperties.SetAclToken | spring-cloud-consul-config/src/main/java/org/springframework/cloud/consul/config/ConsulConfigDataLocationResolver.java:227-228 | sets the ACL token |
| ConfigDataLocationResolver.LoadConfigProperties | spring-cloud-consul-config/src/main/java/org/springframework/cloud/consul/config/ConsulConfigDataLocationResolver.java:215-231 | fresh config properties holding the bound settings (or the defaults) with the name and token defaulting rules applied |
| ConfigDataLocationResolver.ResolveProfileSpecific | spring-cloud-consul-config/src/main/java/org/springframework/cloud/consul/config/ConsulConfigDataLocationResolver.java:91-118 | the agent address and config settings are the loaded ones, and resource k carries the path and profile of context k of the chosen contexts |

## Left out

- Logging, in every class: it has no effect on behaviour.
- TTL scheduler internals and the re-registration predicate: they are outside the registry. The model only records which calls the registry makes on the scheduler.
- Runtime exceptions other than `ConsulException` from the agent client in `register`: they propagate regardless of fail-fast, and are not modelled.
- A `null` status passed to `setStatus`, and `null` check fields in `getStatus`: both throw `NullPointerException` in Java and are not modelled.
- The event service's `watch()` internals, its event index and its cursor: `watch()` is a parameter of each poll.
- Timing, threads and interruption on the executor: only the calls on it are recorded.
- `doStart` after `doStop`: Java's executor throws `RejectedExecutionException`, which the model returns as `Fail(RejectedExecution)`. Executor states other than running and shut down are not modelled.
- A `sendMessage` that throws: the model assumes sending succeeds.
- The platform charset of `new String(bytes)`: messages carry the decoded bytes.
- `equalsIgnoreCase`: case folding is modelled for ASCII letters and for the four non-ASCII characters whose folding reaches an ASCII letter. Other Unicode case pairs are not folded.
- Spring's `UriComponentsBuilder`: a parameter of `ResolveProfileSpecific`.
- `generateAutomaticContexts` of `ConsulPropertySources` (not part of this model): a parameter of `ChooseContexts`.
- Spring's binder: it is seen only through the optional values it returns, so binding and conversion errors are not modelled.
- Bean registration and promotion, `createConsulClient` and `ConsulConfigDataIndexes`: bootstrap plumbing with no effect on the values the resolver computes.
- The fields of `ConsulProperties` and `ConsulConfigProperties` other than host, port, format, name and ACL token: the resolver never reads or sets them.
