# Verifier chooser by public key id

A model of `Base64EncodedVerifierWithChooserByPublicKeyIdImpl` from spring-crypto-utils:
the object that verifies a base64 encoded digital signature over a text message with a
public key chosen at call time by a logical id. It keeps a cache from key id to verifier;
on the first call for an id it looks the key up in an injected id-to-key map, binds a new
verifier to that key and to the algorithm (default `SHA1withRSA`) and charset (default
`UTF-8`) configured at that moment, caches it, and delegates the check to it. An id known
neither to the cache nor to the map fails with a `SignatureException`
("public key not found: publicKeyId=...").

Files:

- `signature.dfy`, module `Signature`: the delegate side. `Verifier` is the immutable
  binding (key, algorithm, charset). The cryptographic primitive is a parameter of type
  `Primitive`, a total and hence deterministic function. It returns a verdict or a failure
  reason, so a delegated failure is never confused with a `false` verdict.
  `SignatureError` separates the chooser's own `KeyNotFound` from failures raised by the
  delegated verifier.
- `chooser.dfy`, module `Chooser`: the core.
  - `VerifyStep` specifies one call.
  - `Apply` and `Run` specify a chooser's lifetime as a sequence of setter and verify
    calls.
  - `Uncached` is a reference chooser without a cache.
  - The class `VerifierChooser` has the Java class's four fields. Its `Verify` method
    updates the `cache` field in place and is proved against `VerifyStep`.

Two behaviours of the code shape the model:

- The cache is a plain unsynchronised `HashMap` read and written by a get-then-put
  sequence, so the model is sequential.
- The setters may be called at any time, also after verifiers were cached. Cached
  verifiers keep their old key, algorithm and charset (`RunKeepsCachedEntries`,
  `CachedAnswerSurvivesReconfiguration`, `RotationIsIgnored`).

## Model

| member | source | states |
|---|---|---|
| `Chooser.VerifierChooser.constructor` | src/main/java/com/google/code/springcryptoutils/core/signature/Base64EncodedVerifierWithChooserByPublicKeyIdImpl.java:16-22 | a new chooser has an empty cache, no key map, algorithm "SHA1withRSA" and charset "UTF-8" |
| `Chooser.VerifierChooser.SetPublicKeyMap` | src/main/java/com/google/code/springcryptoutils/core/signature/Base64EncodedVerifierWithChooserByPublicKeyIdImpl.java:32-34 | the key map becomes the given map; nothing else changes, cached verifiers included |
| `Chooser.VerifierChooser.SetAlgorithm` | src/main/java/com/google/code/springcryptoutils/core/signature/Base64EncodedVerifierWithChooserByPublicKeyIdImpl.java:41-43 | the algorithm becomes the given name; nothing else changes |
| `Chooser.VerifierChooser.SetCharsetName` | src/main/java/com/google/code/springcryptoutils/core/signature/Base64EncodedVerifierWithChooserByPublicKeyIdImpl.java:51-53 | the charset becomes the given name; nothing else changes |
| `Chooser.VerifierChooser.Verify` | src/main/java/com/google/code/springcryptoutils/core/signature/Base64EncodedVerifierWithChooserByPublicKeyIdImpl.java:65-84 | the answer and the new cache are those of `VerifyStep` on the old state. On a hit the cache is unchanged and the cached verifier answers. An id missing from cache and map fails with KeyNotFound and leaves the cache unchanged. Otherwise the cache gains exactly the entry id ↦ (map key, current algorithm, current charset) and that verifier answers |
| `Chooser.VerifyStep` | src/main/java/com/google/code/springcryptoutils/core/signature/Base64EncodedVerifierWithChooserByPublicKeyIdImpl.java:65-83 | one call never removes or replaces a cache entry and adds at most the requested id. It fails with KeyNotFound exactly when the id is in neither cache nor map, and then leaves the cache as it was. Otherwise the id is cached, even when the delegated check fails, and the answer is that verifier's. A verifier built by the call holds the map's key and the current algorithm and charset |
| `Chooser.VerifyStepIdempotent` | src/main/java/com/google/code/springcryptoutils/core/signature/Base64EncodedVerifierWithChooserByPublicKeyIdImpl.java:65-83 | a second identical call returns the same answer and leaves the cache as the first call left it |
| `Chooser.VerifyStepMatchesUncached` | src/main/java/com/google/code/springcryptoutils/core/signature/Base64EncodedVerifierWithChooserByPublicKeyIdImpl.java:65-83 | if every cached verifier matches the current map and configuration, a call answers what a chooser without a cache would answer, and that match still holds afterwards |
| `Chooser.Apply` | src/main/java/com/google/code/springcryptoutils/core/signature/Base64EncodedVerifierWithChooserByPublicKeyIdImpl.java:32-83 | one public operation keeps the key map set, and it returns an answer exactly when it is a verify call |
| `Chooser.Run` | src/main/java/com/google/code/springcryptoutils/core/signature/Base64EncodedVerifierWithChooserByPublicKeyIdImpl.java:32-83 | a sequence of operations yields one reply per operation, an answer exactly at the verify calls, and keeps the key map set |
| `Chooser.RunKeepsCachedEntries` | src/main/java/com/google/code/springcryptoutils/core/signature/Base64EncodedVerifierWithChooserByPublicKeyIdImpl.java:32-83 | over any sequence of operations, setters included, the cache only grows. No entry is removed or replaced, and every new key is an id some verify call asked for |
| `Chooser.CachedAnswerSurvivesReconfiguration` | src/main/java/com/google/code/springcryptoutils/core/signature/Base64EncodedVerifierWithChooserByPublicKeyIdImpl.java:32-70 | once an id is cached, any later operations, setters included, leave its answer to the verifier first bound to it |
| `Chooser.RunBindsAtCreation` | src/main/java/com/google/code/springcryptoutils/core/signature/Base64EncodedVerifierWithChooserByPublicKeyIdImpl.java:72-82 | every entry added over a sequence of operations was built by one verify call that found the id uncached. It holds the key, algorithm and charset current at that call |
| `Chooser.RunAppend` | src/main/java/com/google/code/springcryptoutils/core/signature/Base64EncodedVerifierWithChooserByPublicKeyIdImpl.java:32-83 | running two sequences of operations one after the other gives the same final state as running their concatenation, and the replies are concatenated too |
| `Chooser.AtMostOneBinding` | src/main/java/com/google/code/springcryptoutils/core/signature/Base64EncodedVerifierWithChooserByPublicKeyIdImpl.java:66-82 | within one sequence of operations, no two verify calls both build a verifier for the same id, so each id is bound at most once |
| `Chooser.RunMatchesUncached` | src/main/java/com/google/code/springcryptoutils/core/signature/Base64EncodedVerifierWithChooserByPublicKeyIdImpl.java:65-83 | from a consistent start, with verify calls only, every answer is what a chooser without a cache would give. So an unknown id always fails, whatever the order, and identical calls get identical answers |
| `Chooser.RotationIsIgnored` | src/main/java/com/google/code/springcryptoutils/core/signature/Base64EncodedVerifierWithChooserByPublicKeyIdImpl.java:32-70 | after an id has been verified once, replacing the key map with a new key for that id does not change its answer |
| `Signature.KeyNotFoundMessageNamesId` | src/main/java/com/google/code/springcryptoutils/core/signature/Base64EncodedVerifierWithChooserByPublicKeyIdImpl.java:78 | the "public key not found" message of two ids is the same exactly when the ids are the same |

## Left out

- The signature check itself is the parameter `primitive`: base64 decoding, charset
  conversion and the `java.security` verification. `Base64EncodedVerifierImpl` is not part
  of this model. Its own failures (malformed base64, unknown algorithm, unsuitable key) are
  an abstract failure reason.
- Concurrency: the source uses an unsynchronised `HashMap`, and races between concurrent
  first calls are not modelled.
- A key map that was never set, or was reset to `null` by `setPublicKeyMap(null)`: on a
  cache miss the source then dereferences `null` (line 75). `VerifierChooser.SetPublicKeyMap`
  takes a map only. `VerifierChooser.Verify` requires the id to be cached or the map to be
  set. `Run` starts from a state whose map is set.
- `null` arguments: a `null` key id (which `HashMap.get` accepts at line 66), a `null`
  message or signature, and a `null` algorithm or charset name. The model's strings are
  never `null`.
- `null` values in the injected map: the source treats a `null` key like an absent id. The
  model's map holds keys only, so this is the "absent" case.
- Aliasing of the injected map: the source keeps the caller's `Map` object, so later
  outside changes to it would be visible. The model stores the map as a value taken when
  the setter is called.
- Spring wiring and configuration loading that populate the key map are external and not
  modelled.
